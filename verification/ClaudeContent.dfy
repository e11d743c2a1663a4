/** The Claude translation loses no text, and no tool arguments but those its gate drops. */
module ClaudeContent {
  import opened Text
  import opened Chunks
  import opened ClaudeStream
  import opened ClaudeTheorems

  // ---- what comes out --------------------------------------------------------------------------

  function TextIn(e: Event): string {
    if e.TextDelta? then e.text else ""
  }

  /** The text a client reassembles. */
  function EmittedText(log: seq<Event>): string {
    if log == [] then "" else EmittedText(log[..|log| - 1]) + TextIn(log[|log| - 1])
  }

  function JsonIn(e: Event, b: nat): string {
    if e.JsonDelta? && e.index == b then e.json else ""
  }

  /** The argument JSON a client reassembles for block b. */
  function EmittedJson(log: seq<Event>, b: nat): string {
    if log == [] then "" else EmittedJson(log[..|log| - 1], b) + JsonIn(log[|log| - 1], b)
  }

  lemma EmittedMore(log: seq<Event>, e: Event, b: nat)
    ensures EmittedText(log + [e]) == EmittedText(log) + TextIn(e)
    ensures EmittedJson(log + [e], b) == EmittedJson(log, b) + JsonIn(e, b)
  {
    assert (log + [e])[..|log|] == log;
  }

  // ---- text ------------------------------------------------------------------------------------

  function OpText(op: Op): string {
    if op.Consume? then ChoicesText(op.chunk.choices, |op.chunk.choices|) else ""
  }

  /** All delta.content the first n calls brought. */
  function OpsText(ops: seq<Op>, n: nat): string
    requires n <= |ops|
  {
    if n == 0 then "" else OpsText(ops, n - 1) + OpText(ops[n - 1])
  }

  /** Two logs a client reassembles alike, as far as text and block b go. */
  ghost predicate SameContent(a: seq<Event>, c: seq<Event>, b: nat) {
    EmittedText(a) == EmittedText(c) && EmittedJson(a, b) == EmittedJson(c, b)
  }

  lemma SilentStep(t: Translator, e: Event, b: nat)
    requires !e.TextDelta? && !e.JsonDelta?
    ensures SameContent(Emit(t, e).out, t.out, b)
  {
    EmittedMore(t.out, e, b);
  }

  lemma FrameSteps(t: Translator, b: nat)
    ensures SameContent(EnsureStarted(t).out, t.out, b)
    ensures SameContent(EnsureTextBlock(t).out, t.out, b)
    ensures SameContent(CloseTextBlock(t).out, t.out, b)
  {
    if !t.started { SilentStep(t, MessageStart(FirstNonEmpty(t.messageID, ""), t.model), b); }
    if !t.textOpen { SilentStep(t, BlockStart(t.nextIndex, TextKind), b); }
    if t.textOpen { SilentStep(t, BlockStop(t.textIndex), b); }
    hide FirstNonEmpty, EmittedText, EmittedJson;
  }

  lemma ContentText(t: Translator, content: string, b: nat)
    ensures EmittedText(ConsumeContent(t, content).out) == EmittedText(t.out) + content
    ensures EmittedJson(ConsumeContent(t, content).out, b) == EmittedJson(t.out, b)
  {
    if content != "" {
      var t1 := t.(hasContent := true);
      FrameSteps(t1, b);
      FrameSteps(EnsureStarted(t1), b);
      var t2 := EnsureTextBlock(EnsureStarted(t1));
      EmittedMore(t2.out, TextDelta(t2.textIndex, content), b);
      hide EnsureStarted, EnsureTextBlock, EmittedText, EmittedJson;
    }
  }

  // ---- tool arguments --------------------------------------------------------------------------

  ghost predicate JsonBelow(log: seq<Event>, n: nat) {
    forall q :: 0 <= q < |log| && log[q].JsonDelta? ==> log[q].index < n
  }

  lemma {:induction false} NoJsonAbove(log: seq<Event>, n: nat, b: nat)
    requires JsonBelow(log, n) && b >= n
    ensures EmittedJson(log, b) == ""
  {
    if log != [] {
      NoJsonAbove(log[..|log| - 1], n, b);
    }
  }

  /** Tool blocks own distinct indices below nextIndex, and nothing was sent above it. */
  ghost predicate Numbered(t: Translator) {
    && (forall k :: k in t.toolBlocks ==> t.toolBlocks[k].openIndex < t.nextIndex)
    && (forall k, l :: k in t.toolBlocks && l in t.toolBlocks && k != l ==> t.toolBlocks[k].openIndex != t.toolBlocks[l].openIndex)
    && JsonBelow(t.out, t.nextIndex)
  }

  /** The argument text sent for tool index k so far. */
  function Sent(t: Translator, k: int): string {
    if k in t.toolBlocks then EmittedJson(t.out, t.toolBlocks[k].openIndex) else ""
  }

  function BlockOf(t: Translator, k: int): nat {
    if k in t.toolBlocks then t.toolBlocks[k].openIndex else 0
  }

  /** Frame steps keep the numbering. */
  lemma FrameNumbered(t: Translator)
    requires Numbered(t)
    ensures Numbered(EnsureStarted(t)) && Numbered(EnsureTextBlock(t)) && Numbered(CloseTextBlock(t))
  {
    hide FirstNonEmpty;
  }

  lemma OpenOldSent(t: Translator, call: ToolCall, k: int)
    requires Numbered(t) && call.index in t.toolBlocks
    ensures Numbered(OpenToolBlock(t, call)) && Sent(OpenToolBlock(t, call), k) == Sent(t, k)
    ensures OpenToolBlock(t, call).out == t.out && call.index in OpenToolBlock(t, call).toolBlocks
  {}

  lemma OpenNewNumbered(t: Translator, call: ToolCall)
    requires Numbered(t) && call.index !in t.toolBlocks
    ensures Numbered(OpenToolBlock(t, call)) && call.index in OpenToolBlock(t, call).toolBlocks
  {
    hide FirstNonEmpty, Decimal;
  }

  lemma OpenNewSent(t: Translator, call: ToolCall, k: int)
    requires Numbered(t) && call.index !in t.toolBlocks
    ensures Sent(OpenToolBlock(t, call), k) == Sent(t, k)
    ensures EmittedText(OpenToolBlock(t, call).out) == EmittedText(t.out)
  {
    hide EmittedText, EmittedJson;
    var b := NewBlock(t, call);
    var e := BlockStart(b.openIndex, ToolKind(b.toolID, b.toolName));
    var u := OpenToolBlock(t, call);
    assert u.out == t.out + [e] && u.toolBlocks == t.toolBlocks[call.index := b] && b.openIndex == t.nextIndex;
    NoJsonAbove(t.out, t.nextIndex, t.nextIndex);
    hide NewBlock, OpenToolBlock, Numbered;
    EmittedMore(t.out, e, if k == call.index then t.nextIndex else BlockOf(t, k));
  }

  lemma OpenSent(t: Translator, call: ToolCall, k: int)
    requires Numbered(t)
    ensures Numbered(OpenToolBlock(t, call)) && Sent(OpenToolBlock(t, call), k) == Sent(t, k)
    ensures EmittedText(OpenToolBlock(t, call).out) == EmittedText(t.out) && call.index in OpenToolBlock(t, call).toolBlocks
  {
    hide *;
    if call.index in t.toolBlocks {
      OpenOldSent(t, call, k);
    } else {
      OpenNewNumbered(t, call);
      OpenNewSent(t, call, k);
    }
  }

  lemma DeltaSent(t: Translator, index: int, json: string, k: int)
    requires Numbered(t) && index in t.toolBlocks
    ensures var u := Emit(t, JsonDelta(t.toolBlocks[index].openIndex, json));
            && Numbered(u) && EmittedText(u.out) == EmittedText(t.out)
            && Sent(u, k) == Sent(t, k) + if index == k then json else ""
  {
    EmittedMore(t.out, JsonDelta(t.toolBlocks[index].openIndex, json), BlockOf(t, k));
    hide EmittedText, EmittedJson;
  }

  lemma CallSent(t: Translator, call: ToolCall, k: int)
    requires Numbered(t)
    ensures var u := ConsumeToolCall(t, call);
            && Numbered(u) && EmittedText(u.out) == EmittedText(t.out)
            && Sent(u, k) == Sent(t, k) + if call.index == k then call.arguments else ""
  {
    OpenSent(t, call, k);
    hide OpenToolBlock, EmittedText, Sent, Numbered, Emit;
    if call.arguments != "" {
      DeltaSent(OpenToolBlock(t, call), call.index, call.arguments, k);
    }
  }

  lemma {:induction false} CallsSent(t: Translator, calls: seq<ToolCall>, n: nat, k: int)
    requires Numbered(t) && n <= |calls|
    ensures var u := ConsumeToolCalls(t, calls, n);
            && Numbered(u) && EmittedText(u.out) == EmittedText(t.out)
            && Sent(u, k) == Sent(t, k) + CallsArgs(calls, k, n)
  {
    hide Numbered, ConsumeToolCall, EmittedText, Sent;
    if n > 0 {
      CallsSent(t, calls, n - 1, k);
      CallSent(ConsumeToolCalls(t, calls, n - 1), calls[n - 1], k);
    }
  }

  /** The arguments for tool index k a choice gets past the gate. */
  function PassedArgs(choice: Choice, k: int): string {
    if AnyMeaningful(choice.toolCalls) then CallsArgs(choice.toolCalls, k, |choice.toolCalls|) else ""
  }

  /** Starting the message and closing the text block leave the tools alone. */
  lemma GateSent(t: Translator, k: int)
    requires Numbered(t)
    ensures var u := CloseTextBlock(EnsureStarted(t.(hasContent := true)));
            Numbered(u) && EmittedText(u.out) == EmittedText(t.out) && Sent(u, k) == Sent(t, k)
  {
    var t1 := t.(hasContent := true);
    assert Numbered(t1) && BlockOf(t1, k) == BlockOf(t, k);
    FrameSteps(t1, BlockOf(t, k));
    FrameSteps(EnsureStarted(t1), BlockOf(t, k));
    FrameNumbered(t1);
    FrameNumbered(EnsureStarted(t1));
    hide EmittedText, EmittedJson, Numbered, FirstNonEmpty;
  }

  lemma ToolsSent(t: Translator, choice: Choice, k: int)
    requires Numbered(t)
    ensures var u := ConsumeTools(t, choice.toolCalls);
            Numbered(u) && EmittedText(u.out) == EmittedText(t.out) && Sent(u, k) == Sent(t, k) + PassedArgs(choice, k)
  {
    GateSent(t, k);
    var t2 := CloseTextBlock(EnsureStarted(t.(hasContent := true)));
    hide AnyMeaningful, EmittedText, CallsArgs, Numbered, Sent, EnsureStarted, CloseTextBlock;
    CallsSent(t2, choice.toolCalls, |choice.toolCalls|, k);
  }

  lemma ContentNumbered(t: Translator, content: string)
    requires Numbered(t)
    ensures Numbered(ConsumeContent(t, content))
    ensures ConsumeContent(t, content).toolBlocks == t.toolBlocks
  {
    hide EnsureStarted, EnsureTextBlock, Numbered;
    if content != "" {
      var t1 := t.(hasContent := true);
      assert Numbered(t1) by { FlagNumbered(t); }
      FrameNumbered(t1);
      FrameNumbered(EnsureStarted(t1));
      FrameBlocks(t1);
      FrameBlocks(EnsureStarted(t1));
      var t2 := EnsureTextBlock(EnsureStarted(t1));
      TextNumbered(t2, TextDelta(t2.textIndex, content));
    }
  }

  lemma FlagNumbered(t: Translator)
    ensures Numbered(t.(hasContent := true)) == Numbered(t)
  {}

  lemma TextNumbered(t: Translator, e: Event)
    requires Numbered(t) && !e.JsonDelta?
    ensures Numbered(Emit(t, e))
  {}

  lemma FrameBlocks(t: Translator)
    ensures EnsureStarted(t).toolBlocks == t.toolBlocks && EnsureTextBlock(t).toolBlocks == t.toolBlocks
  {}

  lemma ContentSent(t: Translator, content: string, k: int)
    requires Numbered(t)
    ensures var u := ConsumeContent(t, content);
            Numbered(u) && EmittedText(u.out) == EmittedText(t.out) + content && Sent(u, k) == Sent(t, k)
  {
    ContentText(t, content, BlockOf(t, k));
    ContentNumbered(t, content);
    hide EmittedText, EmittedJson, ConsumeContent, Numbered;
  }

  lemma NoteSent(t: Translator, reason: string, k: int)
    requires Numbered(t)
    ensures var u := NoteFinish(t, reason); Numbered(u) && u.out == t.out && Sent(u, k) == Sent(t, k)
  {}

  lemma ChoiceSent(t: Translator, choice: Choice, k: int)
    requires Numbered(t)
    ensures var u := ConsumeChoice(t, choice);
            && Numbered(u) && EmittedText(u.out) == EmittedText(t.out) + choice.content
            && Sent(u, k) == Sent(t, k) + PassedArgs(choice, k)
  {
    hide ConsumeContent, ConsumeTools, EmittedText, PassedArgs, Numbered, Sent, NoteFinish;
    ContentSent(t, choice.content, k);
    var t1 := ConsumeContent(t, choice.content);
    ToolsSent(t1, choice, k);
    NoteSent(ConsumeTools(t1, choice.toolCalls), choice.finishReason, k);
  }

  function ChoicesPassed(choices: seq<Choice>, k: int, n: nat): string
    requires n <= |choices|
  {
    if n == 0 then "" else ChoicesPassed(choices, k, n - 1) + PassedArgs(choices[n - 1], k)
  }

  lemma {:induction false} ChoicesSent(t: Translator, choices: seq<Choice>, n: nat, k: int)
    requires Numbered(t) && n <= |choices|
    ensures var u := ConsumeChoices(t, choices, n);
            && Numbered(u) && EmittedText(u.out) == EmittedText(t.out) + ChoicesText(choices, n)
            && Sent(u, k) == Sent(t, k) + ChoicesPassed(choices, k, n)
  {
    hide Numbered, ConsumeChoice, EmittedText, Sent, PassedArgs;
    if n > 0 {
      ChoicesSent(t, choices, n - 1, k);
      ChoiceSent(ConsumeChoices(t, choices, n - 1), choices[n - 1], k);
    }
  }

  lemma ChunkSent(t: Translator, chunk: Chunk, k: int)
    requires Numbered(t)
    ensures var u := ConsumeChunk(t, chunk);
            && Numbered(u) && EmittedText(u.out) == EmittedText(t.out) + ChoicesText(chunk.choices, |chunk.choices|)
            && Sent(u, k) == Sent(t, k) + ChoicesPassed(chunk.choices, k, |chunk.choices|)
  {
    HeaderSent(t, chunk, k);
    hide NoteHeader, Numbered, ConsumeChoices, EmittedText, ChoicesText, ChoicesPassed, Sent;
    ChoicesSent(NoteHeader(t, chunk), chunk.choices, |chunk.choices|, k);
  }

  lemma HeaderSent(t: Translator, chunk: Chunk, k: int)
    requires Numbered(t)
    ensures var u := NoteHeader(t, chunk); Numbered(u) && u.out == t.out && Sent(u, k) == Sent(t, k)
  {
    HeaderKeepsStarted(t, chunk);
    hide NoteHeader, EmittedJson;
  }

  // ---- Finish ----------------------------------------------------------------------------------

  lemma CloseBlockSent(t: Translator, key: int, k: int)
    requires Numbered(t)
    ensures var u := CloseBlock(t, key);
            && Numbered(u) && EmittedText(u.out) == EmittedText(t.out) && Sent(u, k) == Sent(t, k)
            && u.toolBlockKeys == t.toolBlockKeys
  {}

  lemma {:induction false} CloseBlocksSent(t: Translator, n: nat, k: int)
    requires Numbered(t) && n <= |t.toolBlockKeys|
    ensures var u := CloseBlocks(t, n);
            && Numbered(u) && EmittedText(u.out) == EmittedText(t.out) && Sent(u, k) == Sent(t, k)
            && u.toolBlockKeys == t.toolBlockKeys
  {
    hide Numbered, EmittedText, Sent, CloseBlock;
    if n > 0 {
      CloseBlocksSent(t, n - 1, k);
      CloseBlockSent(CloseBlocks(t, n - 1), t.toolBlockKeys[n - 1], k);
    }
  }

  lemma EndSent(t: Translator, a: Event, b: Event, k: int)
    requires Numbered(t) && a.MessageDelta? && b.MessageStop?
    ensures var u := Emit(Emit(t, a), b).(finished := true);
            Numbered(u) && EmittedText(u.out) == EmittedText(t.out) && Sent(u, k) == Sent(t, k)
  {
    SilentStep(t, a, BlockOf(t, k));
    SilentStep(Emit(t, a), b, BlockOf(t, k));
    hide EmittedText, EmittedJson;
  }

  lemma CloseTextSent(t: Translator, k: int)
    requires Numbered(t)
    ensures var u := CloseTextBlock(EnsureStarted(t));
            Numbered(u) && EmittedText(u.out) == EmittedText(t.out) && Sent(u, k) == Sent(t, k)
  {
    FrameSteps(t, BlockOf(t, k));
    FrameSteps(EnsureStarted(t), BlockOf(t, k));
    FrameNumbered(t);
    FrameNumbered(EnsureStarted(t));
    hide EmittedText, EmittedJson, Numbered, FirstNonEmpty;
  }

  lemma FinishSent(t: Translator, k: int)
    requires Numbered(t)
    ensures var u := Finished(t);
            Numbered(u) && EmittedText(u.out) == EmittedText(t.out) && Sent(u, k) == Sent(t, k)
  {
    if !t.finished && (t.hasContent || t.started) {
      CloseTextSent(t, k);
      var t1 := CloseTextBlock(EnsureStarted(t));
      CloseBlocksSent(t1, |t1.toolBlockKeys|, k);
      var t2 := CloseBlocks(t1, |t1.toolBlockKeys|);
      EndSent(t2, MessageDelta(MapFinishReason(t2.finishReason), t2.usage), MessageStop, k);
      hide EmittedText, MapFinishReason, CloseBlocks, CloseTextBlock, EnsureStarted, Numbered, Sent, Emit;
    }
    hide EmittedText, EmittedJson;
  }

  // ---- whole runs ------------------------------------------------------------------------------

  function OpPassed(op: Op, k: int): string {
    if op.Consume? then ChoicesPassed(op.chunk.choices, k, |op.chunk.choices|) else ""
  }

  /** The arguments of tool index k that got past the gate in the first n calls. */
  function OpsPassed(ops: seq<Op>, k: int, n: nat): string
    requires n <= |ops|
  {
    if n == 0 then "" else OpsPassed(ops, k, n - 1) + OpPassed(ops[n - 1], k)
  }

  lemma OpSent(t: Translator, op: Op, k: int)
    requires Numbered(t)
    ensures var u := Apply(t, op);
            && Numbered(u) && EmittedText(u.out) == EmittedText(t.out) + OpText(op)
            && Sent(u, k) == Sent(t, k) + OpPassed(op, k)
  {
    hide Numbered, ConsumeChunk, Finished, EmittedText, Sent, ChoicesText, ChoicesPassed;
    match op
    case Consume(chunk) => ChunkSent(t, chunk, k);
    case Finish => FinishSent(t, k);
  }

  lemma FreshSent(model: string, k: int)
    ensures Numbered(Fresh(model)) && EmittedText(Fresh(model).out) == "" && Sent(Fresh(model), k) == ""
  {}

  /** No text is lost, invented or reordered, whatever the calls; and per tool index the fragments
      sent into its block concatenate to exactly the fragments let through the gate. */
  lemma {:induction false} NothingIsLost(model: string, ops: seq<Op>, n: nat, k: int)
    requires n <= |ops|
    ensures Numbered(Play(model, ops, n))
    ensures EmittedText(Play(model, ops, n).out) == OpsText(ops, n)
    ensures Sent(Play(model, ops, n), k) == OpsPassed(ops, k, n)
  {
    hide Numbered, Apply, EmittedText, Sent, OpText, OpPassed, Fresh;
    if n > 0 {
      NothingIsLost(model, ops, n - 1, k);
      OpSent(Play(model, ops, n - 1), ops[n - 1], k);
    } else {
      FreshSent(model, k);
    }
  }

  // ---- what the gate drops ---------------------------------------------------------------------

  function OpArgs(op: Op, k: int): string {
    if op.Consume? then ChoicesArgs(op.chunk.choices, k, |op.chunk.choices|) else ""
  }

  /** All argument fragments of tool index k, gate or no gate. */
  function OpsArgs(ops: seq<Op>, k: int, n: nat): string
    requires n <= |ops|
  {
    if n == 0 then "" else OpsArgs(ops, k, n - 1) + OpArgs(ops[n - 1], k)
  }

  /** The choice carries arguments for k in a list the gate drops: fields that are all blank, yet not
      all empty. */
  predicate Drops(choice: Choice, k: int) {
    !AnyMeaningful(choice.toolCalls) && CallsArgs(choice.toolCalls, k, |choice.toolCalls|) != ""
  }

  predicate ChoicesDrop(choices: seq<Choice>, k: int, n: nat)
    requires n <= |choices|
  {
    exists i :: 0 <= i < n && Drops(choices[i], k)
  }

  predicate OpDrops(op: Op, k: int) {
    op.Consume? && ChoicesDrop(op.chunk.choices, k, |op.chunk.choices|)
  }

  predicate OpsDrop(ops: seq<Op>, k: int, n: nat)
    requires n <= |ops|
  {
    exists i :: 0 <= i < n && OpDrops(ops[i], k)
  }

  lemma {:induction false} ChoicesLoss(choices: seq<Choice>, k: int, n: nat)
    requires n <= |choices|
    ensures |ChoicesPassed(choices, k, n)| <= |ChoicesArgs(choices, k, n)|
    ensures ChoicesDrop(choices, k, n) ==> |ChoicesPassed(choices, k, n)| < |ChoicesArgs(choices, k, n)|
    ensures !ChoicesDrop(choices, k, n) ==> ChoicesPassed(choices, k, n) == ChoicesArgs(choices, k, n)
  {
    hide AnyMeaningful, CallsArgs;
    if n > 0 {
      ChoicesLoss(choices, k, n - 1);
      if !ChoicesDrop(choices, k, n) {
        assert !Drops(choices[n - 1], k);
        assert !ChoicesDrop(choices, k, n - 1);
      }
    }
  }

  lemma OpLoss(op: Op, k: int)
    ensures |OpPassed(op, k)| <= |OpArgs(op, k)|
    ensures OpPassed(op, k) == OpArgs(op, k) <==> !OpDrops(op, k)
  {
    hide ChoicesPassed, ChoicesArgs, ChoicesDrop;
    if op.Consume? {
      ChoicesLoss(op.chunk.choices, k, |op.chunk.choices|);
    }
  }

  /** Exactly when the arguments survive: no list the gate drops carries a fragment for k. */
  lemma {:induction false} ArgumentsSurvive(ops: seq<Op>, k: int, n: nat)
    requires n <= |ops|
    ensures |OpsPassed(ops, k, n)| <= |OpsArgs(ops, k, n)|
    ensures OpsPassed(ops, k, n) == OpsArgs(ops, k, n) <==> !OpsDrop(ops, k, n)
  {
    hide OpPassed, OpArgs, OpDrops;
    if n > 0 {
      ArgumentsSurvive(ops, k, n - 1);
      OpLoss(ops[n - 1], k);
      LongerDiffers(OpsPassed(ops, k, n - 1), OpsArgs(ops, k, n - 1), OpPassed(ops[n - 1], k), OpArgs(ops[n - 1], k));
      assert OpsDrop(ops, k, n) <==> OpsDrop(ops, k, n - 1) || OpDrops(ops[n - 1], k);
    }
  }

  /** Prefix and suffix each at most as long: equal concatenations force equal parts. */
  lemma LongerDiffers(a: string, b: string, c: string, d: string)
    requires |a| <= |b| && |c| <= |d|
    ensures a + c == b + d ==> a == b && c == d
  {
    if a + c == b + d {
      assert |a| == |b|;
      assert a == (a + c)[..|a|] && b == (b + d)[..|b|];
      assert c == (a + c)[|a|..] && d == (b + d)[|b|..];
    }
  }

  /** A stream whose fragment lists all carry some non-blank field reaches the client in full. */
  lemma MeaningfulListsSurvive(model: string, ops: seq<Op>, k: int)
    requires forall i, j :: 0 <= i < |ops| && ops[i].Consume? && 0 <= j < |ops[i].chunk.choices| ==>
      ops[i].chunk.choices[j].toolCalls == [] || AnyMeaningful(ops[i].chunk.choices[j].toolCalls)
    ensures Sent(Play(model, ops, |ops|), k) == OpsArgs(ops, k, |ops|)
  {
    NothingIsLost(model, ops, |ops|, k);
    ArgumentsSurvive(ops, k, |ops|);
    hide Play, AnyMeaningful, OpsPassed, OpsArgs;
    assert !OpsDrop(ops, k, |ops|);
  }
}

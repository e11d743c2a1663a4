/** Exactly what a Gemini client receives, as a function of the chunks alone. */
module GeminiTheorems {
  import opened Optional
  import opened Text
  import opened Chunks
  import opened GeminiStream
  import opened Sorting

  // ---- the input, flattened --------------------------------------------------------------------

  /** All tool calls of the first n choices, in order. */
  function ChoiceCalls(choices: seq<Choice>, n: nat): seq<ToolCall>
    requires n <= |choices|
  {
    if n == 0 then [] else ChoiceCalls(choices, n - 1) + choices[n - 1].toolCalls
  }

  function AllCalls(chunks: seq<Chunk>, n: nat): seq<ToolCall>
    requires n <= |chunks|
  {
    if n == 0 then [] else AllCalls(chunks, n - 1) + ChoiceCalls(chunks[n - 1].choices, |chunks[n - 1].choices|)
  }

  function Nonempty(s: string): seq<string> {
    if s == "" then [] else [s]
  }

  /** All non-empty delta.content of the first n choices, in order. */
  function ChoiceTexts(choices: seq<Choice>, n: nat): seq<string>
    requires n <= |choices|
  {
    if n == 0 then [] else ChoiceTexts(choices, n - 1) + Nonempty(choices[n - 1].content)
  }

  function AllTexts(chunks: seq<Chunk>, n: nat): seq<string>
    requires n <= |chunks|
  {
    if n == 0 then [] else AllTexts(chunks, n - 1) + ChoiceTexts(chunks[n - 1].choices, |chunks[n - 1].choices|)
  }

  /** The argument fragments of tool index k, concatenated. */
  function ArgsFor(calls: seq<ToolCall>, k: int, n: nat): string
    requires n <= |calls|
  {
    if n == 0 then ""
    else ArgsFor(calls, k, n - 1) + if calls[n - 1].index == k then calls[n - 1].arguments else ""
  }

  /** The first non-empty name given for tool index k. */
  function NameFor(calls: seq<ToolCall>, k: int, n: nat): string
    requires n <= |calls|
  {
    if n == 0 then ""
    else
      var earlier := NameFor(calls, k, n - 1);
      if earlier == "" && calls[n - 1].index == k then calls[n - 1].name else earlier
  }

  predicate Mentions(calls: seq<ToolCall>, k: int) {
    exists i :: 0 <= i < |calls| && calls[i].index == k
  }

  predicate AnyArguments(calls: seq<ToolCall>) {
    exists i :: 0 <= i < |calls| && calls[i].arguments != ""
  }

  function TextFrames(texts: seq<string>): seq<Frame> {
    seq(|texts|, i requires 0 <= i < |texts| => TextPart(texts[i]))
  }

  /** One function-call frame per listed tool index, with its full name and arguments. */
  function CallFrames(calls: seq<ToolCall>, keys: seq<int>): seq<Frame> {
    seq(|keys|, i requires 0 <= i < |keys| =>
      FunctionCall(NameFor(calls, keys[i], |calls|), ArgsFor(calls, keys[i], |calls|)))
  }

  // ---- before Finish ---------------------------------------------------------------------------

  /** The state is a function of the texts and calls taken so far. */
  ghost predicate Holds(t: Translator, texts: seq<string>, calls: seq<ToolCall>) {
    && !t.finished
    && t.out == TextFrames(texts)
    && (t.started <==> texts != [])
    && (t.hasContent <==> texts != [] || AnyArguments(calls))
    && HoldsTools(t, calls)
  }

  ghost predicate HoldsTools(t: Translator, calls: seq<ToolCall>) {
    && (forall k :: k in t.toolCalls <==> Mentions(calls, k))
    && (forall k :: k in t.toolCalls ==> t.toolCalls[k] == CallState(NameFor(calls, k, |calls|), ArgsFor(calls, k, |calls|)))
    && (forall k :: k in t.toolCallKeys <==> k in t.toolCalls)
    && Distinct(t.toolCallKeys)
  }

  lemma {:induction false} FoldPrefix(calls: seq<ToolCall>, more: seq<ToolCall>, k: int, n: nat)
    requires n <= |calls|
    ensures ArgsFor(calls + more, k, n) == ArgsFor(calls, k, n)
    ensures NameFor(calls + more, k, n) == NameFor(calls, k, n)
  {
    if n > 0 {
      FoldPrefix(calls, more, k, n - 1);
    }
  }

  lemma {:induction false} Unmentioned(calls: seq<ToolCall>, k: int, n: nat)
    requires n <= |calls| && !Mentions(calls, k)
    ensures ArgsFor(calls, k, n) == "" && NameFor(calls, k, n) == ""
  {
    if n > 0 {
      Unmentioned(calls, k, n - 1);
    }
  }

  lemma MentionsMore(calls: seq<ToolCall>, call: ToolCall, k: int)
    ensures Mentions(calls + [call], k) <==> Mentions(calls, k) || call.index == k
    ensures AnyArguments(calls + [call]) <==> AnyArguments(calls) || call.arguments != ""
  {
    var more := calls + [call];
    assert more[|calls|] == call;
    if i :| 0 <= i < |calls| && calls[i].index == k { assert more[i].index == k; }
    if i :| 0 <= i < |calls| && calls[i].arguments != "" { assert more[i].arguments != ""; }
  }

  lemma CallHoldsTools(t: Translator, calls: seq<ToolCall>, call: ToolCall)
    requires HoldsTools(t, calls)
    ensures HoldsTools(ConsumeToolCall(t, call), calls + [call])
  {
    var u, more := ConsumeToolCall(t, call), calls + [call];
    forall k ensures k in u.toolCalls <==> Mentions(more, k) {
      MentionsMore(calls, call, k);
    }
    forall k | k in u.toolCalls
      ensures u.toolCalls[k] == CallState(NameFor(more, k, |more|), ArgsFor(more, k, |more|))
    {
      FoldPrefix(calls, [call], k, |calls|);
      if k !in t.toolCalls {
        Unmentioned(calls, k, |calls|);
      }
    }
    hide NameFor, ArgsFor, Mentions;
  }

  lemma CallHolds(t: Translator, texts: seq<string>, calls: seq<ToolCall>, call: ToolCall)
    requires Holds(t, texts, calls)
    ensures Holds(ConsumeToolCall(t, call), texts, calls + [call])
  {
    CallHoldsTools(t, calls, call);
    MentionsMore(calls, call, call.index);
    hide HoldsTools, AnyArguments, Mentions;
  }

  lemma {:induction false} CallsHold(t: Translator, texts: seq<string>, calls: seq<ToolCall>, more: seq<ToolCall>, n: nat)
    requires Holds(t, texts, calls) && n <= |more|
    ensures Holds(ConsumeToolCalls(t, more, n), texts, calls + more[..n])
  {
    hide Holds, ConsumeToolCall;
    if n > 0 {
      CallsHold(t, texts, calls, more, n - 1);
      CallHolds(ConsumeToolCalls(t, more, n - 1), texts, calls + more[..n - 1], more[n - 1]);
      assert calls + more[..n] == calls + more[..n - 1] + [more[n - 1]];
    } else {
      assert calls + more[..0] == calls;
    }
  }

  lemma ContentHolds(t: Translator, texts: seq<string>, calls: seq<ToolCall>, content: string)
    requires Holds(t, texts, calls)
    ensures Holds(ConsumeContent(t, content), texts + Nonempty(content), calls)
  {}

  lemma ChoiceHolds(t: Translator, texts: seq<string>, calls: seq<ToolCall>, choice: Choice)
    requires Holds(t, texts, calls)
    ensures Holds(ConsumeChoice(t, choice), texts + Nonempty(choice.content), calls + choice.toolCalls)
  {
    ContentHolds(t, texts, calls, choice.content);
    var t1 := ConsumeContent(t, choice.content);
    CallsHold(t1, texts + Nonempty(choice.content), calls, choice.toolCalls, |choice.toolCalls|);
    assert choice.toolCalls[..|choice.toolCalls|] == choice.toolCalls;
    hide ConsumeContent, ConsumeToolCalls, AnyArguments, Mentions, NameFor, ArgsFor, TextFrames;
  }

  lemma {:induction false} ChoicesHold(t: Translator, texts: seq<string>, calls: seq<ToolCall>, choices: seq<Choice>, n: nat)
    requires Holds(t, texts, calls) && n <= |choices|
    ensures Holds(ConsumeChoices(t, choices, n), texts + ChoiceTexts(choices, n), calls + ChoiceCalls(choices, n))
  {
    hide Holds, ConsumeChoice, Nonempty;
    if n > 0 {
      ChoicesHold(t, texts, calls, choices, n - 1);
      ChoiceHolds(ConsumeChoices(t, choices, n - 1), texts + ChoiceTexts(choices, n - 1),
                  calls + ChoiceCalls(choices, n - 1), choices[n - 1]);
      assert texts + ChoiceTexts(choices, n) == texts + ChoiceTexts(choices, n - 1) + Nonempty(choices[n - 1].content);
      assert calls + ChoiceCalls(choices, n) == calls + ChoiceCalls(choices, n - 1) + choices[n - 1].toolCalls;
    } else {
      assert texts + [] == texts && calls + [] == calls;
    }
  }

  lemma HeaderHolds(t: Translator, texts: seq<string>, calls: seq<ToolCall>, chunk: Chunk)
    requires Holds(t, texts, calls)
    ensures Holds(NoteHeader(t, chunk), texts, calls)
  {}

  /** The translator after the first n chunks. */
  function Feed(model: string, chunks: seq<Chunk>, n: nat): Translator
    requires n <= |chunks|
  {
    if n == 0 then Fresh(model) else ConsumeChunk(Feed(model, chunks, n - 1), chunks[n - 1])
  }

  lemma FreshHolds(model: string)
    ensures Holds(Fresh(model), [], [])
  {}

  lemma {:induction false} FeedHolds(model: string, chunks: seq<Chunk>, n: nat)
    requires n <= |chunks|
    ensures Holds(Feed(model, chunks, n), AllTexts(chunks, n), AllCalls(chunks, n))
  {
    hide Holds, Fresh, NoteHeader, ConsumeChoices, ChoiceTexts, ChoiceCalls;
    if n > 0 {
      FeedHolds(model, chunks, n - 1);
      var t, chunk := Feed(model, chunks, n - 1), chunks[n - 1];
      HeaderHolds(t, AllTexts(chunks, n - 1), AllCalls(chunks, n - 1), chunk);
      ChoicesHold(NoteHeader(t, chunk), AllTexts(chunks, n - 1), AllCalls(chunks, n - 1), chunk.choices, |chunk.choices|);
    } else {
      FreshHolds(model);
    }
  }

  // ---- Finish ----------------------------------------------------------------------------------

  lemma {:induction false} EmitCallsFrames(t: Translator, calls: seq<ToolCall>, n: nat)
    requires HoldsTools(t, calls) && n <= |t.toolCallKeys|
    ensures EmitCalls(t, n).out == t.out + CallFrames(calls, t.toolCallKeys[..n])
  {
    hide NameFor, ArgsFor, Mentions;
    if n > 0 {
      EmitCallsFrames(t, calls, n - 1);
      var key := t.toolCallKeys[n - 1];
      assert key in t.toolCalls;
      assert CallFrames(calls, t.toolCallKeys[..n])
          == CallFrames(calls, t.toolCallKeys[..n - 1]) + [FunctionCall(t.toolCalls[key].name, t.toolCalls[key].arguments)];
    }
  }

  /** The tool indices in the order Finish reports them: each once, ascending. */
  ghost predicate ListsIndices(keys: seq<int>, calls: seq<ToolCall>) {
    && (forall i, j :: 0 <= i < j < |keys| ==> keys[i] < keys[j])
    && (forall k :: k in keys <==> Mentions(calls, k))
  }

  /** Sorting keeps the key list a duplicate-free list of the same indices. */
  lemma SortedHolds(t: Translator, calls: seq<ToolCall>)
    requires HoldsTools(t, calls)
    ensures HoldsTools(t.(toolCallKeys := SortInts(t.toolCallKeys)), calls)
    ensures ListsIndices(SortInts(t.toolCallKeys), calls)
  {
    SortDistinct(t.toolCallKeys);
    hide SortInts, NameFor, ArgsFor, Mentions;
  }

  // ---- what is remembered for the end ----------------------------------------------------------

  function ChoicesReason(before: string, choices: seq<Choice>, n: nat): string
    requires n <= |choices|
  {
    if n == 0 then before
    else if choices[n - 1].finishReason != "" then choices[n - 1].finishReason
    else ChoicesReason(before, choices, n - 1)
  }

  /** The last finish reason that is not empty. */
  function LastReason(chunks: seq<Chunk>, n: nat): string
    requires n <= |chunks|
  {
    if n == 0 then ""
    else ChoicesReason(LastReason(chunks, n - 1), chunks[n - 1].choices, |chunks[n - 1].choices|)
  }

  function LastUsage(chunks: seq<Chunk>, n: nat): Option<string>
    requires n <= |chunks|
  {
    if n == 0 then None else if chunks[n - 1].usage.Some? then chunks[n - 1].usage else LastUsage(chunks, n - 1)
  }

  lemma {:induction false} CallsRemember(t: Translator, calls: seq<ToolCall>, n: nat)
    requires n <= |calls|
    ensures var u := ConsumeToolCalls(t, calls, n); u.finishReason == t.finishReason && u.usage == t.usage
  {
    if n > 0 {
      CallsRemember(t, calls, n - 1);
    }
  }

  lemma ChoiceRemembers(t: Translator, choice: Choice)
    ensures var u := ConsumeChoice(t, choice);
            && u.finishReason == (if choice.finishReason != "" then choice.finishReason else t.finishReason) && u.usage == t.usage
  {
    hide ConsumeToolCalls;
    CallsRemember(ConsumeContent(t, choice.content), choice.toolCalls, |choice.toolCalls|);
  }

  lemma {:induction false} ChoicesRemember(t: Translator, choices: seq<Choice>, n: nat)
    requires n <= |choices|
    ensures var u := ConsumeChoices(t, choices, n);
            u.finishReason == ChoicesReason(t.finishReason, choices, n) && u.usage == t.usage
  {
    hide ConsumeChoice;
    if n > 0 {
      ChoicesRemember(t, choices, n - 1);
      ChoiceRemembers(ConsumeChoices(t, choices, n - 1), choices[n - 1]);
    }
  }

  lemma HeaderRemembers(t: Translator, chunk: Chunk)
    ensures var u := NoteHeader(t, chunk);
            u.finishReason == t.finishReason && u.usage == if chunk.usage.Some? then chunk.usage else t.usage
  {
    hide FirstNonEmpty;
  }

  lemma {:induction false} FeedRemembers(model: string, chunks: seq<Chunk>, n: nat)
    requires n <= |chunks|
    ensures Feed(model, chunks, n).finishReason == LastReason(chunks, n) && Feed(model, chunks, n).usage == LastUsage(chunks, n)
  {
    hide NoteHeader, ConsumeChoices, ChoicesReason;
    if n > 0 {
      FeedRemembers(model, chunks, n - 1);
      HeaderRemembers(Feed(model, chunks, n - 1), chunks[n - 1]);
      ChoicesRemember(NoteHeader(Feed(model, chunks, n - 1), chunks[n - 1]), chunks[n - 1].choices, |chunks[n - 1].choices|);
    }
  }

  /** Every usual reason ends the stream with STOP; others are passed on in upper case. */
  lemma ReasonIs(reason: string)
    ensures MapFinishReason(reason) == if TrimSpace(reason) in {"", "stop", "length", "tool_calls"} then "STOP" else ToUpper(reason)
  {
    hide TrimSpace, ToUpper;
  }

  /** Any chunks, then Finish: nothing if no text and no arguments came; otherwise every non-empty text
      in order, one call per tool index (ascending, with its first non-empty name and all its
      argument fragments), and one final frame with the last finish reason and usage. */
  lemma OutputIsExact(model: string, chunks: seq<Chunk>)
    ensures var texts, calls := AllTexts(chunks, |chunks|), AllCalls(chunks, |chunks|);
            var t, reason := Finished(Feed(model, chunks, |chunks|)), LastReason(chunks, |chunks|);
            && t.finished
            && (t.started <==> t.out != [])
            && if texts == [] && !AnyArguments(calls) then t.out == []
               else
                 && ListsIndices(t.toolCallKeys, calls)
                 && t.out == TextFrames(texts) + CallFrames(calls, t.toolCallKeys)
                           + [FinishFrame(if TrimSpace(reason) in {"", "stop", "length", "tool_calls"} then "STOP" else ToUpper(reason),
                                          LastUsage(chunks, |chunks|))]
  {
    hide *;
    FeedRemembers(model, chunks, |chunks|);
    ReasonIs(LastReason(chunks, |chunks|));
    FeedHolds(model, chunks, |chunks|);
    FinishIsExact(Feed(model, chunks, |chunks|), AllTexts(chunks, |chunks|), AllCalls(chunks, |chunks|));
  }

  lemma FinishIsExact(t: Translator, texts: seq<string>, calls: seq<ToolCall>)
    requires Holds(t, texts, calls)
    ensures var u := Finished(t);
            && u.finished
            && (u.started <==> u.out != [])
            && if texts == [] && !AnyArguments(calls) then u.out == []
               else
                 && ListsIndices(u.toolCallKeys, calls)
                 && u.out == TextFrames(texts) + CallFrames(calls, u.toolCallKeys) + [FinishFrame(MapFinishReason(t.finishReason), t.usage)]
  {
    hide MapFinishReason, SortInts, Mentions, AnyArguments, HoldsTools, ListsIndices;
    if texts != [] || AnyArguments(calls) {
      SortedHolds(t, calls);
      var t1 := t.(toolCallKeys := SortInts(t.toolCallKeys));
      EmitCallsFrames(t1, calls, |t1.toolCallKeys|);
      assert t1.toolCallKeys[..|t1.toolCallKeys|] == t1.toolCallKeys;
    }
  }

  /** A second Finish (the relay calls it again at end of input) writes nothing. */
  lemma FinishIsIdempotent(t: Translator)
    ensures Finished(Finished(t)) == Finished(t)
  {}
}

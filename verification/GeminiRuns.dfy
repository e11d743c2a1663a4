/** Any sequence of Consume and Finish calls on a Gemini translator, and exactly when its client is left
    with nothing or with one whole stream. */
module GeminiRuns {
  import opened Text
  import opened Chunks
  import opened GeminiStream
  import SseRelay
  import Sorting

  type Calls = seq<SseRelay.Handed>

  /** The translator after the first n calls. */
  function Play(model: string, calls: Calls, n: nat): Translator
    requires n <= |calls|
  {
    if n == 0 then Fresh(model)
    else
      var t := Play(model, calls, n - 1);
      if calls[n - 1].Consumed? then ConsumeChunk(t, calls[n - 1].chunk) else Finished(t)
  }

  /** One finish frame, at the end. */
  predicate Complete(log: seq<Frame>) {
    log != [] && forall i :: 0 <= i < |log| ==> (log[i].FinishFrame? <==> i == |log| - 1)
  }

  // ---- what a caller can tell beforehand -------------------------------------------------------

  /** Call i consumes a chunk with text. */
  predicate Says(calls: Calls, i: nat)
    requires i < |calls|
  {
    calls[i].Consumed? && ChoicesText(calls[i].chunk.choices, |calls[i].chunk.choices|) != ""
  }

  predicate AnySays(calls: Calls, n: nat)
    requires n <= |calls|
  {
    n > 0 && (AnySays(calls, n - 1) || Says(calls, n - 1))
  }

  predicate AnyFinish(calls: Calls, n: nat)
    requires n <= |calls|
  {
    n > 0 && (AnyFinish(calls, n - 1) || calls[n - 1].FinishCalled?)
  }

  predicate SaysAfterFinish(calls: Calls, n: nat)
    requires n <= |calls|
  {
    n > 0 && (SaysAfterFinish(calls, n - 1) || (AnyFinish(calls, n - 1) && Says(calls, n - 1)))
  }

  // ---- what one call writes --------------------------------------------------------------------

  predicate Unfinished(log: seq<Frame>) {
    forall i :: 0 <= i < |log| ==> !log[i].FinishFrame?
  }

  predicate EndsOpen(log: seq<Frame>) {
    log != [] && !log[|log| - 1].FinishFrame?
  }

  /** What consuming leaves: the frames grow exactly if there was text. */
  predicate Grown(t: Translator, u: Translator, said: bool) {
    && u.finished == t.finished && (Unfinished(t.out) ==> Unfinished(u.out))
    && (u.started <==> t.started || said)
    && if said then EndsOpen(u.out) else u.out == t.out
  }

  lemma {:induction false} CallsGrow(t: Translator, calls: seq<ToolCall>, n: nat)
    requires n <= |calls|
    ensures var u := ConsumeToolCalls(t, calls, n); u.out == t.out && u.started == t.started && u.finished == t.finished
  {
    if n > 0 {
      CallsGrow(t, calls, n - 1);
    }
  }

  lemma ChoiceGrows(t: Translator, choice: Choice)
    ensures Grown(t, ConsumeChoice(t, choice), choice.content != "")
  {
    hide ConsumeToolCalls;
    CallsGrow(ConsumeContent(t, choice.content), choice.toolCalls, |choice.toolCalls|);
  }

  lemma {:induction false} ChoicesGrow(t: Translator, choices: seq<Choice>, n: nat)
    requires n <= |choices|
    ensures Grown(t, ConsumeChoices(t, choices, n), ChoicesText(choices, n) != "")
  {
    hide ConsumeChoice;
    if n > 0 {
      ChoicesGrow(t, choices, n - 1);
      ChoiceGrows(ConsumeChoices(t, choices, n - 1), choices[n - 1]);
    }
  }

  lemma ChunkGrows(t: Translator, chunk: Chunk)
    ensures Grown(t, ConsumeChunk(t, chunk), ChoicesText(chunk.choices, |chunk.choices|) != "")
  {
    hide ConsumeChoices, FirstNonEmpty;
    var t1 := NoteHeader(t, chunk);
    assert t1.out == t.out && t1.started == t.started && t1.finished == t.finished;
    hide NoteHeader;
    ChoicesGrow(t1, chunk.choices, |chunk.choices|);
  }

  lemma {:induction false} EmittedCallsUnfinished(t: Translator, n: nat)
    requires n <= |t.toolCallKeys| && Unfinished(t.out)
    ensures Unfinished(EmitCalls(t, n).out)
  {
    if n > 0 {
      EmittedCallsUnfinished(t, n - 1);
    }
  }

  /** The first Finish completes the stream, unless there is nothing to complete. */
  lemma FinishOnce(t: Translator)
    requires !t.finished && Unfinished(t.out) && (t.started <==> t.out != [])
    ensures var u := Finished(t);
            u.finished && (Complete(u.out) || (u.out == [] && t.out == []))
  {
    hide EmitCalls, MapFinishReason;
    var t1 := t.(toolCallKeys := Sorting.SortInts(t.toolCallKeys));
    EmittedCallsUnfinished(t1, |t1.toolCallKeys|);
  }

  // ---- the theorem -----------------------------------------------------------------------------

  predicate Stands(t: Translator, calls: Calls, n: nat)
    requires n <= |calls|
  {
    if !AnyFinish(calls, n) then
      && !t.finished && Unfinished(t.out) && (t.started <==> t.out != [])
      && (t.out != [] <==> AnySays(calls, n))
    else
      t.finished && if SaysAfterFinish(calls, n) then EndsOpen(t.out) else t.out == [] || Complete(t.out)
  }

  lemma {:induction false} NoneLate(calls: Calls, n: nat)
    requires n <= |calls|
    ensures !AnyFinish(calls, n) ==> !SaysAfterFinish(calls, n)
  {
    hide Says;
    if n > 0 {
      NoneLate(calls, n - 1);
    }
  }

  lemma StandsConsume(t: Translator, calls: Calls, n: nat)
    requires n < |calls| && calls[n].Consumed? && Stands(t, calls, n)
    ensures Stands(ConsumeChunk(t, calls[n].chunk), calls, n + 1)
  {
    hide ConsumeChunk, ChoicesText, Complete;
    ChunkGrows(t, calls[n].chunk);
  }

  lemma StandsFinish(t: Translator, calls: Calls, n: nat)
    requires n < |calls| && calls[n].FinishCalled? && Stands(t, calls, n)
    ensures Stands(Finished(t), calls, n + 1)
  {
    NoneLate(calls, n);
    if AnyFinish(calls, n) {
      assert Finished(t) == t;
    } else {
      hide Finished, Complete;
      FinishOnce(t);
    }
  }

  lemma {:induction false} PlayStands(model: string, calls: Calls, n: nat)
    requires n <= |calls|
    ensures Stands(Play(model, calls, n), calls, n)
  {
    hide Stands, ConsumeChunk, Finished;
    if n == 0 {
      FreshStands(model, calls);
    } else {
      PlayStands(model, calls, n - 1);
      match calls[n - 1] {
        case Consumed(_) => StandsConsume(Play(model, calls, n - 1), calls, n - 1);
        case FinishCalled => StandsFinish(Play(model, calls, n - 1), calls, n - 1);
      }
    }
  }

  lemma FreshStands(model: string, calls: Calls)
    ensures Stands(Fresh(model), calls, 0)
  {}

  /** For every sequence of calls: the client gets nothing or one whole stream exactly when no text
      comes after the first Finish and any text is followed by a Finish. */
  lemma StreamsAreWhole(model: string, calls: Calls)
    ensures var log := Play(model, calls, |calls|).out;
            log == [] || Complete(log) <==>
              !SaysAfterFinish(calls, |calls|) && (AnySays(calls, |calls|) ==> AnyFinish(calls, |calls|))
  {
    hide Play;
    PlayStands(model, calls, |calls|);
    NoneLate(calls, |calls|);
    OpenIsIncomplete(Play(model, calls, |calls|).out);
  }

  lemma OpenIsIncomplete(log: seq<Frame>)
    ensures EndsOpen(log) || (log != [] && Unfinished(log)) ==> log != [] && !Complete(log)
  {
    if log != [] {
      assert Complete(log) ==> log[|log| - 1].FinishFrame?;
    }
  }
}

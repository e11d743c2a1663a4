/** The three translators inside the retry loops: a client is shown one attempt at most. */
module OneAttempt {
  import opened Text
  import opened Chunks
  import opened SseRelay
  import opened Upstream
  import opened Executors
  import C = ClaudeStream
  import CT = ClaudeTheorems
  import G = GeminiStream
  import GT = GeminiTheorems
  import R = ResponsesStream
  import RT = ResponsesTheorems
  import RO = ResponsesOutcome
  import RR = ResponsesRuns
  import RF = ResponsesForm
  import GR = GeminiRuns

  // ---- Claude ----------------------------------------------------------------------------------

  /** What the relay hands over, as translator calls. */
  function Ops(handed: seq<Handed>): seq<CT.Op> {
    seq(|handed|, i requires 0 <= i < |handed| =>
      if handed[i].Consumed? then CT.Consume(handed[i].chunk) else CT.Finish)
  }

  function ClaudeShown(model: string, handed: seq<Handed>): Shown<C.Event> {
    var t := CT.Play(model, Ops(handed), |handed|);
    Shown(t.out, t.started, t.hasContent)
  }

  predicate ClaudeHonest(t: C.Translator) {
    (t.started <==> t.out != []) && (t.hasContent ==> t.started)
  }

  predicate ClaudeWriting(t: C.Translator) {
    t.started && t.out != []
  }

  lemma {:induction false} CallsKeepWriting(t: C.Translator, calls: seq<ToolCall>, n: nat)
    requires ClaudeWriting(t) && n <= |calls|
    ensures ClaudeWriting(C.ConsumeToolCalls(t, calls, n))
  {
    hide C.ConsumeToolCall;
    if n > 0 {
      CallsKeepWriting(t, calls, n - 1);
      CallKeepsWriting(C.ConsumeToolCalls(t, calls, n - 1), calls[n - 1]);
    }
  }

  lemma CallKeepsWriting(t: C.Translator, call: ToolCall)
    requires ClaudeWriting(t)
    ensures ClaudeWriting(C.ConsumeToolCall(t, call))
  {}

  lemma ChoiceKeepsHonest(t: C.Translator, choice: Choice)
    requires ClaudeHonest(t)
    ensures ClaudeHonest(C.ConsumeChoice(t, choice))
  {
    hide C.ConsumeTools, C.ConsumeContent;
    ContentKeepsHonest(t, choice.content);
    ToolsKeepHonest(C.ConsumeContent(t, choice.content), choice.toolCalls);
  }

  lemma ContentKeepsHonest(t: C.Translator, content: string)
    requires ClaudeHonest(t)
    ensures ClaudeHonest(C.ConsumeContent(t, content))
  {}

  lemma ToolsKeepHonest(t: C.Translator, calls: seq<ToolCall>)
    requires ClaudeHonest(t)
    ensures ClaudeHonest(C.ConsumeTools(t, calls))
  {
    hide AnyMeaningful, C.ConsumeToolCalls;
    if AnyMeaningful(calls) {
      CallsKeepWriting(C.CloseTextBlock(C.EnsureStarted(t.(hasContent := true))), calls, |calls|);
    }
  }

  lemma {:induction false} ChoicesKeepHonest(t: C.Translator, choices: seq<Choice>, n: nat)
    requires ClaudeHonest(t) && n <= |choices|
    ensures ClaudeHonest(C.ConsumeChoices(t, choices, n))
  {
    hide C.ConsumeChoice;
    if n > 0 {
      ChoicesKeepHonest(t, choices, n - 1);
      ChoiceKeepsHonest(C.ConsumeChoices(t, choices, n - 1), choices[n - 1]);
    }
  }

  lemma ChunkKeepsHonest(t: C.Translator, chunk: Chunk)
    requires ClaudeHonest(t)
    ensures ClaudeHonest(C.ConsumeChunk(t, chunk))
  {
    hide C.ConsumeChoices, C.NoteHeader;
    CT.HeaderKeepsStarted(t, chunk);
    ChoicesKeepHonest(C.NoteHeader(t, chunk), chunk.choices, |chunk.choices|);
  }

  lemma {:induction false} BlocksKeepWriting(t: C.Translator, n: nat)
    requires ClaudeWriting(t) && n <= |t.toolBlockKeys|
    ensures ClaudeWriting(C.CloseBlocks(t, n))
  {
    if n > 0 {
      BlocksKeepWriting(t, n - 1);
    }
  }

  lemma FinishKeepsHonest(t: C.Translator)
    requires ClaudeHonest(t)
    ensures ClaudeHonest(C.Finished(t))
  {
    if t.hasContent || t.started {
      var t1 := C.CloseTextBlock(C.EnsureStarted(t));
      assert ClaudeWriting(t1);
      hide C.CloseTextBlock, C.EnsureStarted, C.CloseBlocks, C.MapFinishReason;
      BlocksKeepWriting(t1, |t1.toolBlockKeys|);
    }
  }

  lemma {:induction false} PlayIsHonest(model: string, ops: seq<CT.Op>, n: nat)
    requires n <= |ops|
    ensures ClaudeHonest(CT.Play(model, ops, n))
  {
    hide CT.Apply, C.Fresh, ClaudeHonest;
    if n == 0 {
      FreshIsHonest(model);
    } else {
      PlayIsHonest(model, ops, n - 1);
      CallKeepsHonest(CT.Play(model, ops, n - 1), ops[n - 1]);
    }
  }

  lemma FreshIsHonest(model: string)
    ensures ClaudeHonest(C.Fresh(model))
  {}

  lemma CallKeepsHonest(t: C.Translator, op: CT.Op)
    requires ClaudeHonest(t)
    ensures ClaudeHonest(CT.Apply(t, op))
  {
    hide C.ConsumeChunk, C.Finished, ClaudeHonest;
    match op {
      case Consume(chunk) => ChunkKeepsHonest(t, chunk);
      case Finish => FinishKeepsHonest(t);
    }
  }

  lemma ClaudeIsHonest(model: string)
    ensures Honest(h => ClaudeShown(model, h))
  {
    forall h: seq<Handed> ensures ClaudeShown(model, h).started <==> ClaudeShown(model, h).written != [] {
      PlayIsHonest(model, Ops(h), |h|);
    }
  }

  /** The silent fallback finishes a fresh translator, which writes nothing: its client receives an
      empty body, not a stream. */
  lemma FreshFinishIsEmpty(model: string)
    ensures ClaudeShown(model, [FinishCalled]).written == [] && GeminiShown(model, [FinishCalled]).written == []
  {
    assert CT.Play(model, Ops([FinishCalled]), 0) == C.Fresh(model);
    assert GR.Play(model, [FinishCalled], 0) == G.Fresh(model);
  }

  // ---- Gemini ----------------------------------------------------------------------------------

  function GeminiShown(model: string, handed: seq<Handed>): Shown<G.Frame> {
    var t := GR.Play(model, handed, |handed|);
    Shown(t.out, t.started, t.hasContent)
  }

  predicate GeminiHonest(t: G.Translator) {
    t.started <==> t.out != []
  }

  lemma {:induction false} GeminiCalls(t: G.Translator, calls: seq<ToolCall>, n: nat)
    requires GeminiHonest(t) && n <= |calls|
    ensures GeminiHonest(G.ConsumeToolCalls(t, calls, n))
  {
    if n > 0 {
      GeminiCalls(t, calls, n - 1);
    }
  }

  lemma {:induction false} GeminiChoices(t: G.Translator, choices: seq<Choice>, n: nat)
    requires GeminiHonest(t) && n <= |choices|
    ensures GeminiHonest(G.ConsumeChoices(t, choices, n))
  {
    if n > 0 {
      GeminiChoices(t, choices, n - 1);
      var t1 := G.ConsumeContent(G.ConsumeChoices(t, choices, n - 1), choices[n - 1].content);
      assert GeminiHonest(t1);
      GeminiCalls(t1, choices[n - 1].toolCalls, |choices[n - 1].toolCalls|);
      hide G.ConsumeToolCalls, G.ConsumeContent;
    }
  }

  lemma GeminiFinish(t: G.Translator)
    requires GeminiHonest(t)
    ensures GeminiHonest(G.Finished(t))
  {}

  lemma GeminiChunk(t: G.Translator, chunk: Chunk)
    requires GeminiHonest(t)
    ensures GeminiHonest(G.ConsumeChunk(t, chunk))
  {
    hide G.ConsumeChoices, FirstNonEmpty;
    GeminiChoices(G.NoteHeader(t, chunk), chunk.choices, |chunk.choices|);
  }

  lemma {:induction false} GeminiPlayHonest(model: string, handed: seq<Handed>, n: nat)
    requires n <= |handed|
    ensures GeminiHonest(GR.Play(model, handed, n))
  {
    hide G.ConsumeChunk, G.Finished;
    if n > 0 {
      GeminiPlayHonest(model, handed, n - 1);
      var t := GR.Play(model, handed, n - 1);
      match handed[n - 1] {
        case Consumed(chunk) => GeminiChunk(t, chunk);
        case FinishCalled => GeminiFinish(t);
      }
    }
  }

  lemma GeminiIsHonest(model: string)
    ensures Honest(h => GeminiShown(model, h))
  {
    forall h: seq<Handed> ensures GeminiShown(model, h).started <==> GeminiShown(model, h).written != [] {
      GeminiPlayHonest(model, h, |h|);
    }
  }

  // ---- Responses -------------------------------------------------------------------------------

  function ResponsesShown(handed: seq<Handed>, normalize: string -> string): Shown<R.Event> {
    var t := RR.Play(handed, |handed|, normalize);
    Shown(t.out, t.headersWritten, t.hasContent)
  }

  predicate ResponsesHonest(t: R.Translator) {
    (t.headersWritten <==> t.out != []) && (t.hasContent || t.functionCalls != map[] ==> t.headersWritten)
  }

  lemma {:induction false} ResponsesCalls(t: R.Translator, calls: seq<ToolCall>, n: nat)
    requires ResponsesHonest(t) && n <= |calls|
    ensures ResponsesHonest(R.ConsumeToolCalls(t, calls, n))
  {
    hide R.ConsumeToolCall;
    if n > 0 {
      ResponsesCalls(t, calls, n - 1);
      ResponsesCall(R.ConsumeToolCalls(t, calls, n - 1), calls[n - 1]);
    }
  }

  lemma ResponsesCall(t: R.Translator, call: ToolCall)
    requires ResponsesHonest(t)
    ensures ResponsesHonest(R.ConsumeToolCall(t, call))
  {
    hide Meaningful, R.FillCall;
  }

  lemma {:induction false} ResponsesChoices(t: R.Translator, choices: seq<Choice>, n: nat)
    requires ResponsesHonest(t) && n <= |choices|
    ensures ResponsesHonest(R.ConsumeChoices(t, choices, n))
  {
    hide R.ConsumeToolCalls, R.ConsumeContent;
    if n > 0 {
      ResponsesChoices(t, choices, n - 1);
      ResponsesContent(R.ConsumeChoices(t, choices, n - 1), choices[n - 1].content);
      var t1 := R.ConsumeContent(R.ConsumeChoices(t, choices, n - 1), choices[n - 1].content);
      ResponsesCalls(t1, choices[n - 1].toolCalls, |choices[n - 1].toolCalls|);
    }
  }

  lemma ResponsesContent(t: R.Translator, content: string)
    requires ResponsesHonest(t)
    ensures ResponsesHonest(R.ConsumeContent(t, content))
  {
  }

  lemma ResponsesFinish(t: R.Translator, normalize: string -> string)
    requires ResponsesHonest(t)
    ensures ResponsesHonest(R.Finished(t, normalize))
  {}

  lemma {:induction false} ResponsesPlayHonest(handed: seq<Handed>, n: nat, normalize: string -> string)
    requires n <= |handed|
    ensures ResponsesHonest(RR.Play(handed, n, normalize))
  {
    hide R.ConsumeChoices, R.Finished;
    if n > 0 {
      ResponsesPlayHonest(handed, n - 1, normalize);
      var t := RR.Play(handed, n - 1, normalize);
      match handed[n - 1] {
        case Consumed(chunk) => ResponsesChoices(t, chunk.choices, |chunk.choices|);
        case FinishCalled => ResponsesFinish(t, normalize);
      }
    }
  }

  lemma ResponsesIsHonest(normalize: string -> string)
    ensures Honest(h => ResponsesShown(h, normalize))
  {
    forall h: seq<Handed> ensures ResponsesShown(h, normalize).started <==> ResponsesShown(h, normalize).written != [] {
      ResponsesPlayHonest(h, |h|, normalize);
    }
  }

  // ---- what the relay's calls amount to --------------------------------------------------------

  /** All chunks, then Finish once, or twice when a done payload came before the end of the body. */
  predicate ChunksThenFinish(handed: seq<Handed>, chunks: seq<Chunk>) {
    && |chunks| < |handed| <= |chunks| + 2
    && (forall i :: 0 <= i < |chunks| ==> handed[i] == Consumed(chunks[i]))
    && forall i :: |chunks| <= i < |handed| ==> handed[i] == FinishCalled
  }

  lemma {:induction false} ResponsesFeeds(handed: seq<Handed>, chunks: seq<Chunk>, n: nat, normalize: string -> string)
    requires ChunksThenFinish(handed, chunks) && n <= |chunks|
    ensures RR.Play(handed, n, normalize) == RT.Feed(chunks, n)
  {
    hide R.ConsumeChunk, R.Finished;
    if n > 0 {
      ResponsesFeeds(handed, chunks, n - 1, normalize);
    }
  }

  lemma FinishedIsCompleted(t: R.Translator, normalize: string -> string)
    ensures R.Finished(R.Finished(t, normalize), normalize) == R.Finished(t, normalize)
  {
    hide R.CloseCalls, R.CloseMessage, R.OutputItems, R.Emit;
  }

  /** A Responses client is shown what chunks followed by one Finish produce, with or without the
      done payload. */
  lemma ResponsesClientSees(handed: seq<Handed>, chunks: seq<Chunk>, normalize: string -> string)
    requires ChunksThenFinish(handed, chunks)
    ensures ResponsesShown(handed, normalize).written == RO.Received(chunks, normalize)
  {
    hide R.ConsumeChunk, R.Finished, RT.Feed;
    ResponsesFeeds(handed, chunks, |chunks|, normalize);
    FinishedIsCompleted(RT.Feed(chunks, |chunks|), normalize);
    assert RR.Play(handed, |chunks| + 1, normalize) == R.Finished(RT.Feed(chunks, |chunks|), normalize);
  }

  lemma {:induction false} GeminiFeeds(model: string, handed: seq<Handed>, chunks: seq<Chunk>, n: nat)
    requires ChunksThenFinish(handed, chunks) && n <= |chunks|
    ensures GR.Play(model, handed, n) == GT.Feed(model, chunks, n)
  {
    hide G.ConsumeChunk, G.Finished;
    if n > 0 {
      GeminiFeeds(model, handed, chunks, n - 1);
    }
  }

  /** The same for a Gemini client. */
  lemma GeminiClientSees(model: string, handed: seq<Handed>, chunks: seq<Chunk>)
    requires ChunksThenFinish(handed, chunks)
    ensures GeminiShown(model, handed).written == G.Finished(GT.Feed(model, chunks, |chunks|)).out
  {
    hide G.ConsumeChunk, G.Finished, GT.Feed;
    GeminiFeeds(model, handed, chunks, |chunks|);
    GT.FinishIsIdempotent(GT.Feed(model, chunks, |chunks|));
    assert GR.Play(model, handed, |chunks| + 1) == G.Finished(GT.Feed(model, chunks, |chunks|));
  }

  /** After a relay that came to its end a Gemini client has one whole stream, or nothing, exactly when no
      text came after a done payload. */
  lemma GeminiClientGets(model: string, body: string, how: Ending, decode: Decoder)
    ensures var relayed := Relayed(body, how, decode);
            var log := GeminiShown(model, relayed.handed).written;
            !relayed.failed ==> (log == [] || GR.Complete(log) <==> !GR.SaysAfterFinish(relayed.handed, |relayed.handed|))
  {
    hide Relayed, GR.Play, GR.Complete, GR.AnySays, GR.AnyFinish, GR.SaysAfterFinish;
    var relayed := Relayed(body, how, decode);
    RelayEnds(body, how, decode);
    GR.StreamsAreWhole(model, relayed.handed);
    if !relayed.failed {
      GeminiCallsFinish(relayed.handed);
    }
  }

  lemma GeminiCallsFinish(handed: seq<Handed>)
    requires handed != [] && handed[|handed| - 1].FinishCalled?
    ensures GR.AnyFinish(handed, |handed|)
  {}

  // ---- Claude clients --------------------------------------------------------------------------

  /** A payload that did not decode ends the relay before Finish. */
  lemma RelayEnds(body: string, how: Ending, decode: Decoder)
    ensures var relayed := Relayed(body, how, decode);
            !relayed.failed ==> relayed.handed != [] && relayed.handed[|relayed.handed| - 1].FinishCalled?
  {}

  lemma EndsInFinish(handed: seq<Handed>)
    requires handed != [] && handed[|handed| - 1].FinishCalled?
    ensures CT.AnyFinish(Ops(handed), |handed|)
  {}

  /** A relay that came to its end leaves nothing or one well-formed Claude stream exactly when no
      chunk after a done payload asked for more; a relay cut off by an undecodable payload with
      content shown and no done payload seen leaves a stream that is not well formed. */
  lemma ClaudeClientSees(model: string, body: string, how: Ending, decode: Decoder)
    ensures var relayed := Relayed(body, how, decode);
            var ops := Ops(relayed.handed);
            var log := ClaudeShown(model, relayed.handed).written;
            && (!relayed.failed ==> (log == [] || CT.WellFormed(log) <==> !CT.WritesAfterFinish(ops, |ops|)))
            && (relayed.failed && log != [] && !CT.AnyFinish(ops, |ops|) ==> !CT.WellFormed(log))
  {
    hide Relayed, CT.Play, CT.WellFormed, CT.AnyContent, CT.AnyFinish, CT.WritesAfterFinish, Ops;
    var relayed := Relayed(body, how, decode);
    var ops := Ops(relayed.handed);
    OpsLength(relayed.handed);
    RelayEnds(body, how, decode);
    if !relayed.failed {
      EndsInFinish(relayed.handed);
    }
    CT.StreamsAreWellFormed(model, ops);
    NoFinishNoLate(ops, |ops|);
    if !CT.WritesAfterFinish(ops, |ops|) {
      CT.StartedIffContent(model, ops);
    }
  }

  lemma OpsLength(handed: seq<Handed>)
    ensures |Ops(handed)| == |handed|
  {}

  lemma {:induction false} NoFinishNoLate(ops: seq<CT.Op>, n: nat)
    requires n <= |ops|
    ensures !CT.AnyFinish(ops, n) ==> !CT.WritesAfterFinish(ops, n)
  {
    hide CT.ChunkEmits, CT.SeenIndices, CT.AnyContent;
    if n > 0 {
      NoFinishNoLate(ops, n - 1);
    }
  }

  lemma ContentIsShown(model: string, handed: seq<Handed>)
    ensures var s := ClaudeShown(model, handed); s.hasContent || s.started ==> s.written != []
  {
    PlayIsHonest(model, Ops(handed), |handed|);
  }

  /** executeTranslatedCompatStream for Claude clients. */
  method ClaudeCompatStream(w: World, maxRetries: int, transportRetries: int, patience: nat, silent: bool,
                            decode: Decoder, model: string)
    returns (verdict: Verdict, shown: seq<seq<C.Event>>)
    modifies w
    ensures Within(old(w.ledger), old(w.calls), w.ledger, w.calls, CrossKeyBudget(maxRetries) + 5, SameKeyBudget(transportRetries))
    ensures OnlyLastWrites(shown) && (!verdict.Succeeded? && !verdict.Interrupted? ==> NoneWrites(shown))
    ensures verdict.Succeeded? ==>
              && w.calls > old(w.calls) && |shown| > 0 && shown[|shown| - 1] != []
              && var ops := Ops(RelayedBy(w.script, w.calls - 1, decode).handed);
              (CT.WellFormed(shown[|shown| - 1]) <==> !CT.WritesAfterFinish(ops, |ops|))
  {
    hide Within, Relayed, ClaudeShown, Ops, Honest, CT.WellFormed, CT.WritesAfterFinish;
    ClaudeIsHonest(model);
    verdict, shown := CompatStream(w, maxRetries, transportRetries, patience, silent, decode, h => ClaudeShown(model, h));
    FreshFinishIsEmpty(model);
    if verdict.Succeeded? {
      var upstream := w.script.stream(w.calls - 1);
      ContentIsShown(model, RelayedBy(w.script, w.calls - 1, decode).handed);
      ClaudeClientSees(model, upstream.body, upstream.how, decode);
    }
  }

  // ---- Gemini clients --------------------------------------------------------------------------

  /** executeTranslatedCompatStream for Gemini clients. */
  method GeminiCompatStream(w: World, maxRetries: int, transportRetries: int, patience: nat, silent: bool,
                            decode: Decoder, model: string)
    returns (verdict: Verdict, shown: seq<seq<G.Frame>>)
    modifies w
    ensures Within(old(w.ledger), old(w.calls), w.ledger, w.calls, CrossKeyBudget(maxRetries) + 5, SameKeyBudget(transportRetries))
    ensures OnlyLastWrites(shown) && (!verdict.Succeeded? && !verdict.Interrupted? ==> NoneWrites(shown))
    ensures verdict.Succeeded? ==>
              && w.calls > old(w.calls) && |shown| > 0
              && var handed := RelayedBy(w.script, w.calls - 1, decode).handed;
              && (shown[|shown| - 1] == [] || GR.Complete(shown[|shown| - 1]) <==> !GR.SaysAfterFinish(handed, |handed|))
              && forall chunks :: ChunksThenFinish(handed, chunks) ==>
                   shown[|shown| - 1] == G.Finished(GT.Feed(model, chunks, |chunks|)).out
  {
    hide Within, Relayed, GeminiShown, ChunksThenFinish, Honest, G.Finished, GT.Feed, GR.Complete, GR.SaysAfterFinish, Turns, InTime, LeaseAt, Shows, NoneShows;
    GeminiIsHonest(model);
    verdict, shown := CompatStream(w, maxRetries, transportRetries, patience, silent, decode, h => GeminiShown(model, h));
    FreshFinishIsEmpty(model);
    if verdict.Succeeded? {
      var upstream, handed := w.script.stream(w.calls - 1), RelayedBy(w.script, w.calls - 1, decode).handed;
      GeminiClientGets(model, upstream.body, upstream.how, decode);
      forall chunks | ChunksThenFinish(handed, chunks)
        ensures GeminiShown(model, handed).written == G.Finished(GT.Feed(model, chunks, |chunks|)).out
      {
        GeminiClientSees(model, handed, chunks);
      }
    }
  }

  // ---- Responses clients -----------------------------------------------------------------------

  /** What the client is shown once the stream broke off and Error has been called. */
  function ResponsesAborted(handed: seq<Handed>, normalize: string -> string, message: string): seq<R.Event> {
    R.Aborted(RR.Play(handed, |handed|, normalize), message).out
  }

  lemma AbortedIsSpoiled(handed: seq<Handed>, normalize: string -> string, message: string)
    ensures var log := ResponsesAborted(handed, normalize, message);
            && |log| >= 2 && log[|log| - 2..] == [R.Failed(message), R.DoneMarker]
            && !RF.WellFormed(log, normalize)
  {
    hide RR.Play, RF.ItemComplete, RF.ItemsBetween;
  }

  lemma RelayCallsFinish(handed: seq<Handed>)
    requires handed != [] && handed[|handed| - 1].FinishCalled?
    ensures RR.AnyFinish(handed, |handed|)
  {}

  /** After a relay that came to its end, the log is one well-formed stream, or nothing, exactly when no
      chunk after a done payload asked for more. */
  lemma ResponsesClientGets(body: string, how: Ending, decode: Decoder, normalize: string -> string)
    ensures var relayed := Relayed(body, how, decode);
            var log := ResponsesShown(relayed.handed, normalize).written;
            !relayed.failed ==>
              (log == [] || RF.WellFormed(log, normalize) <==> !RR.AsksAfterFinish(relayed.handed, |relayed.handed|))
  {
    hide Relayed, RR.Play, RF.WellFormed, RR.AnyAsks, RR.AnyFinish, RR.AsksAfterFinish;
    var relayed := Relayed(body, how, decode);
    RelayEnds(body, how, decode);
    RR.StreamsAreWellFormed(relayed.handed, normalize);
    if !relayed.failed {
      RelayCallsFinish(relayed.handed);
    }
  }

  lemma ResponsesAreShown(handed: seq<Handed>, normalize: string -> string)
    ensures var s := ResponsesShown(handed, normalize); s.hasContent || s.started ==> s.written != []
  {
    ResponsesPlayHonest(handed, |handed|, normalize);
  }

  /** executeResponsesStream with its own translator. */
  method ResponsesClientStream(w: World, maxRetries: int, transportRetries: int, patience: nat,
                               decode: Decoder, normalize: string -> string, message: string)
    returns (verdict: ResponsesVerdict, shown: seq<seq<R.Event>>)
    modifies w
    ensures Within(old(w.ledger), old(w.calls), w.ledger, w.calls, CrossKeyBudget(maxRetries), SameKeyBudget(transportRetries))
    ensures OnlyLastWrites(shown) && (verdict.ErrorStream? ==> NoneWrites(shown))
    ensures !verdict.ErrorStream? ==> w.calls > old(w.calls) && |shown| > 0 && shown[|shown| - 1] != []
    ensures verdict.Completed? ==>
              var handed := RelayedBy(w.script, w.calls - 1, decode).handed;
              (RF.WellFormed(shown[|shown| - 1], normalize) <==> !RR.AsksAfterFinish(handed, |handed|))
    ensures verdict.CutOff? ==>
              var log := shown[|shown| - 1];
              |log| >= 2 && log[|log| - 2..] == [R.Failed(message), R.DoneMarker] && !RF.WellFormed(log, normalize)
  {
    hide Within, Relayed, ResponsesShown, ResponsesAborted, Honest, RF.WellFormed, RR.AsksAfterFinish;
    ResponsesIsHonest(normalize);
    verdict, shown := ResponsesStreamed(w, maxRetries, transportRetries, patience, decode,
      h => ResponsesShown(h, normalize), h => ResponsesAborted(h, normalize, message));
    if !verdict.ErrorStream? {
      var upstream, handed := w.script.stream(w.calls - 1), RelayedBy(w.script, w.calls - 1, decode).handed;
      AbortedIsSpoiled(handed, normalize, message);
      ResponsesClientGets(upstream.body, upstream.how, decode, normalize);
      ResponsesAreShown(handed, normalize);
    }
  }
}

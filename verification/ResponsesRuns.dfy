/** Any sequence of Consume and Finish calls on a Responses translator, and exactly when its client is
    left with nothing or with one well-formed stream. */
module ResponsesRuns {
  import opened Optional
  import opened Text
  import opened Chunks
  import opened ResponsesStream
  import opened ResponsesTheorems
  import SseRelay
  import F = ResponsesForm
  import O = ResponsesOutcome

  type Calls = seq<SseRelay.Handed>

  /** The translator after the first n calls. */
  function Play(calls: Calls, n: nat, normalize: string -> string): Translator
    requires n <= |calls|
  {
    if n == 0 then Fresh
    else
      var t := Play(calls, n - 1, normalize);
      if calls[n - 1].Consumed? then ConsumeChunk(t, calls[n - 1].chunk) else Finished(t, normalize)
  }

  // ---- what a caller can tell beforehand -------------------------------------------------------

  function AtomsOf(chunk: Chunk): seq<Atom> {
    ChoicesAtoms(chunk.choices, |chunk.choices|)
  }

  function ToolsIn(atoms: seq<Atom>, n: nat): set<int>
    requires n <= |atoms|
  {
    if n == 0 then {} else ToolsIn(atoms, n - 1) + if atoms[n - 1].Call? then {atoms[n - 1].call.index} else {}
  }

  /** The tools mentioned by the first n calls. */
  function SeenTools(calls: Calls, n: nat): set<int>
    requires n <= |calls|
  {
    if n == 0 then {}
    else SeenTools(calls, n - 1) + if calls[n - 1].Consumed? then ToolsIn(AtomsOf(calls[n - 1].chunk), |AtomsOf(calls[n - 1].chunk)|) else {}
  }

  /** Text, arguments, or a tool not mentioned before. */
  predicate AtomAsks(seen: set<int>, a: Atom) {
    match a
    case Content(text) => text != ""
    case Call(call) => call.arguments != "" || call.index !in seen
  }

  predicate AtomsAsk(seen: set<int>, atoms: seq<Atom>, n: nat)
    requires n <= |atoms|
  {
    n > 0 && (AtomsAsk(seen, atoms, n - 1) || AtomAsks(seen, atoms[n - 1]))
  }

  /** Call i consumes a chunk that asks for output. */
  predicate Asks(calls: Calls, i: nat)
    requires i < |calls|
  {
    && calls[i].Consumed?
    && AtomsAsk(SeenTools(calls, i), AtomsOf(calls[i].chunk), |AtomsOf(calls[i].chunk)|)
  }

  predicate AnyAsks(calls: Calls, n: nat)
    requires n <= |calls|
  {
    n > 0 && (AnyAsks(calls, n - 1) || Asks(calls, n - 1))
  }

  predicate AnyFinish(calls: Calls, n: nat)
    requires n <= |calls|
  {
    n > 0 && (AnyFinish(calls, n - 1) || calls[n - 1].FinishCalled?)
  }

  /** Some chunk asks for output after Finish was called. */
  predicate AsksAfterFinish(calls: Calls, n: nat)
    requires n <= |calls|
  {
    n > 0 && (AsksAfterFinish(calls, n - 1) || (AnyFinish(calls, n - 1) && Asks(calls, n - 1)))
  }

  // ---- what one chunk writes -------------------------------------------------------------------

  /** Something is written and the done marker is not the last of it. */
  predicate LeftOpen(log: seq<Event>) {
    log != [] && log[|log| - 1] != DoneMarker
  }

  predicate Grown(t: Translator, u: Translator, wrote: bool) {
    if wrote then LeftOpen(u.out) else u.out == t.out
  }

  lemma ContentWrites(t: Translator, text: string)
    ensures Grown(t, ConsumeContent(t, text), text != "")
  {
    hide EnsureMessage;
  }

  lemma OpenWrites(t: Translator, call: ToolCall)
    ensures Grown(t, OpenCall(t, call), call.index !in t.functionCalls)
    ensures OpenCall(t, call).functionCalls.Keys == t.functionCalls.Keys + {call.index}
  {
    hide CallIdFor;
  }

  lemma CallWrites(t: Translator, call: ToolCall)
    ensures Grown(t, ConsumeToolCall(t, call), call.arguments != "" || call.index !in t.functionCalls)
  {
    hide Meaningful, OpenCall, FillCall;
    OpenWrites(if Meaningful(call) then t.(hasContent := true) else t, call);
  }

  lemma TakeWrites(t: Translator, a: Atom)
    ensures Grown(t, Take(t, a), AtomAsks(t.functionCalls.Keys, a))
    ensures Take(t, a).functionCalls.Keys == t.functionCalls.Keys + if a.Call? then {a.call.index} else {}
    ensures Take(t, a).completed == t.completed
  {
    hide ConsumeContent, ConsumeToolCall, LeftOpen;
    match a {
      case Content(text) =>
        ContentWrites(t, text);
        O.ContentEffect(t, text);
      case Call(call) =>
        CallWrites(t, call);
        O.CallEffect(t, call);
    }
  }

  lemma {:induction false} TakeAllWrites(t: Translator, atoms: seq<Atom>, n: nat)
    requires n <= |atoms|
    ensures var u := TakeAll(t, atoms, n);
            && Grown(t, u, AtomsAsk(t.functionCalls.Keys, atoms, n))
            && u.functionCalls.Keys == t.functionCalls.Keys + ToolsIn(atoms, n)
            && u.completed == t.completed
    ensures !AtomsAsk(t.functionCalls.Keys, atoms, n) ==> ToolsIn(atoms, n) <= t.functionCalls.Keys
  {
    hide Take, LeftOpen;
    if n > 0 {
      TakeAllWrites(t, atoms, n - 1);
      TakeWrites(TakeAll(t, atoms, n - 1), atoms[n - 1]);
    }
  }

  lemma ChunkWrites(t: Translator, chunk: Chunk)
    ensures var u, atoms := ConsumeChunk(t, chunk), AtomsOf(chunk);
            && Grown(t, u, AtomsAsk(t.functionCalls.Keys, atoms, |atoms|))
            && u.functionCalls.Keys == t.functionCalls.Keys + ToolsIn(atoms, |atoms|)
            && u.completed == t.completed && u == TakeAll(t, atoms, |atoms|)
  {
    hide ConsumeChoices, ChoicesAtoms, AtomsAsk, ToolsIn, TakeAll, LeftOpen;
    ChoicesAreAtoms(t, chunk.choices, |chunk.choices|);
    TakeAllWrites(t, AtomsOf(chunk), |AtomsOf(chunk)|);
  }

  // ---- before Finish ---------------------------------------------------------------------------

  /** The state of a translator that has only consumed. */
  ghost predicate Consuming(t: Translator) {
    exists atoms: seq<Atom> :: t == TakeAll(Fresh, atoms, |atoms|)
  }

  lemma FreshConsumes()
    ensures Consuming(Fresh)
  {
    var nothing: seq<Atom> := [];
    assert Fresh == TakeAll(Fresh, nothing, |nothing|);
  }

  lemma ConsumesMore(t: Translator, chunk: Chunk)
    requires Consuming(t)
    ensures Consuming(ConsumeChunk(t, chunk))
  {
    hide ConsumeChunk, TakeAll, AtomsOf;
    var atoms: seq<Atom> :| t == TakeAll(Fresh, atoms, |atoms|);
    var more := AtomsOf(chunk);
    ChunkWrites(t, chunk);
    TakeConcat(Fresh, atoms, more, |more|);
    assert ConsumeChunk(t, chunk) == TakeAll(Fresh, atoms + more, |atoms + more|);
  }

  /** Finish either writes nothing or completes a stream the reader accepts. */
  lemma FinishOnce(t: Translator, normalize: string -> string)
    requires Consuming(t)
    ensures var u := Finished(t, normalize);
            && !t.completed && u.completed && u.functionCalls == t.functionCalls
            && (t.out == [] ==> u.out == [])
            && (t.out != [] ==> F.WellFormed(u.out, normalize))
  {
    hide TakeAll, Finished, F.WellFormed, Live, Keyed, Watch, Mentions;
    var atoms: seq<Atom> :| t == TakeAll(Fresh, atoms, |atoms|);
    O.MessageHolds(atoms, |atoms|);
    O.KeyedHolds(atoms, |atoms|);
    O.HeadersHold(atoms, |atoms|);
    O.LiveHolds(atoms, |atoms|, normalize);
    FinishedFields(t, normalize);
    if t.headersWritten {
      O.FinishSeals(t, normalize);
      F.AcceptedIffWellFormed(Finished(t, normalize).out, normalize);
    }
    LiveIsWritten(t, normalize);
  }

  lemma LiveIsWritten(t: Translator, normalize: string -> string)
    ensures Live(t, normalize) ==> t.out != []
  {}

  lemma FinishedFields(t: Translator, normalize: string -> string)
    ensures Finished(t, normalize).completed
    ensures Finished(t, normalize).functionCalls == t.functionCalls
    ensures !t.hasContent && !t.headersWritten ==> Finished(t, normalize).out == t.out
  {
    hide CloseCalls, SortedIndexes, OutputItems, TrimSpace;
    CloseCallsFrame(CloseMessage(t), SortedIndexes(t), |SortedIndexes(t)|, normalize);
  }

  // ---- the theorem -----------------------------------------------------------------------------

  ghost predicate Stands(t: Translator, calls: Calls, n: nat, normalize: string -> string)
    requires n <= |calls|
  {
    && t.functionCalls.Keys == SeenTools(calls, n)
    && if !AnyFinish(calls, n) then
         Consuming(t) && (if AnyAsks(calls, n) then LeftOpen(t.out) else t.out == [])
       else
         && t.completed
         && if AsksAfterFinish(calls, n) then LeftOpen(t.out)
            else if AnyAsks(calls, n) then F.WellFormed(t.out, normalize)
            else t.out == []
  }

  lemma StandsConsume(t: Translator, calls: Calls, n: nat, normalize: string -> string)
    requires n < |calls| && calls[n].Consumed? && Stands(t, calls, n, normalize)
    ensures Stands(ConsumeChunk(t, calls[n].chunk), calls, n + 1, normalize)
  {
    hide ConsumeChunk, Consuming, F.WellFormed, LeftOpen, AtomsAsk, ToolsIn, AtomsOf;
    ChunkWrites(t, calls[n].chunk);
    if !AnyFinish(calls, n) {
      ConsumesMore(t, calls[n].chunk);
    }
  }

  lemma StandsFinish(t: Translator, calls: Calls, n: nat, normalize: string -> string)
    requires n < |calls| && calls[n].FinishCalled? && Stands(t, calls, n, normalize)
    ensures Stands(Finished(t, normalize), calls, n + 1, normalize)
  {
    hide Finished, Consuming, F.WellFormed, LeftOpen, AtomsAsk, ToolsIn, AtomsOf;
    if AnyFinish(calls, n) {
      FinishedTwice(t, normalize);
    } else {
      FinishOnce(t, normalize);
      LeftOpenIsWritten(t.out);
      NoneLate(calls, n);
    }
  }

  lemma LeftOpenIsWritten(log: seq<Event>)
    ensures LeftOpen(log) ==> log != []
  {}

  lemma FinishedTwice(t: Translator, normalize: string -> string)
    requires t.completed
    ensures Finished(t, normalize) == t
  {}

  lemma {:induction false} NoneLate(calls: Calls, n: nat)
    requires n <= |calls|
    ensures !AnyFinish(calls, n) ==> !AsksAfterFinish(calls, n)
  {
    hide Asks;
    if n > 0 {
      NoneLate(calls, n - 1);
    }
  }

  lemma {:induction false} PlayStands(calls: Calls, n: nat, normalize: string -> string)
    requires n <= |calls|
    ensures Stands(Play(calls, n, normalize), calls, n, normalize)
  {
    hide Stands, ConsumeChunk, Finished;
    if n == 0 {
      FreshStands(calls, normalize);
    } else {
      PlayStands(calls, n - 1, normalize);
      var t := Play(calls, n - 1, normalize);
      match calls[n - 1] {
        case Consumed(_) => StandsConsume(t, calls, n - 1, normalize);
        case FinishCalled => StandsFinish(t, calls, n - 1, normalize);
      }
    }
  }

  lemma FreshStands(calls: Calls, normalize: string -> string)
    ensures Stands(Fresh, calls, 0, normalize)
  {
    hide Consuming;
    FreshConsumes();
  }

  lemma OpenIsUnfinished(log: seq<Event>, normalize: string -> string)
    ensures LeftOpen(log) ==> log != [] && !F.WellFormed(log, normalize)
    ensures F.WellFormed(log, normalize) ==> log != []
  {
    hide F.ItemComplete, F.ItemsBetween, F.Completes;
  }

  /** For every sequence of calls: the client gets nothing or one well-formed stream exactly when
      nothing is asked for after the first Finish and any output is followed by a Finish. */
  lemma StreamsAreWellFormed(calls: Calls, normalize: string -> string)
    ensures var log := Play(calls, |calls|, normalize).out;
            && (log == [] || F.WellFormed(log, normalize) <==>
                 !AsksAfterFinish(calls, |calls|) && (AnyAsks(calls, |calls|) ==> AnyFinish(calls, |calls|)))
            && (log == [] <==> !AnyAsks(calls, |calls|))
  {
    hide Play, F.WellFormed, LeftOpen, Consuming, AnyAsks, AsksAfterFinish, AnyFinish;
    PlayStands(calls, |calls|, normalize);
    OpenIsUnfinished(Play(calls, |calls|, normalize).out, normalize);
    NoneLate(calls, |calls|);
    LateIsAsked(calls, |calls|);
  }

  lemma {:induction false} LateIsAsked(calls: Calls, n: nat)
    requires n <= |calls|
    ensures AsksAfterFinish(calls, n) ==> AnyAsks(calls, n)
  {
    hide Asks;
    if n > 0 {
      LateIsAsked(calls, n - 1);
    }
  }
}

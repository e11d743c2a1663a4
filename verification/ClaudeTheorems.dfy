/** What every Claude stream looks like, whatever chunks come in. */
module ClaudeTheorems {
  import opened Optional
  import opened Text
  import opened Chunks
  import opened ClaudeStream

  // ---- an independent reader of the stream -----------------------------------------------------

  datatype Phase = Waiting | Streaming | Closing | Over

  /** What a reader of the stream knows: the phase, the kind of each block started so far (by index),
      and the blocks still open. */
  datatype Monitor = Monitor(phase: Phase, kinds: seq<Kind>, open: set<nat>)

  function Advance(m: Monitor, e: Event): Option<Monitor> {
    match e
    case MessageStart(_, _) =>
      if m.phase.Waiting? then Some(m.(phase := Streaming)) else None
    case BlockStart(i, kind) =>
      if m.phase.Streaming? && i == |m.kinds| then Some(m.(kinds := m.kinds + [kind], open := m.open + {i})) else None
    case TextDelta(i, _) =>
      if m.phase.Streaming? && i in m.open && i < |m.kinds| && m.kinds[i].TextKind? then Some(m) else None
    case JsonDelta(i, _) =>
      if m.phase.Streaming? && i in m.open && i < |m.kinds| && m.kinds[i].ToolKind? then Some(m) else None
    case BlockStop(i) =>
      if m.phase.Streaming? && i in m.open then Some(m.(open := m.open - {i})) else None
    case MessageDelta(_, _) =>
      if m.phase.Streaming? && m.open == {} then Some(m.(phase := Closing)) else None
    case MessageStop =>
      if m.phase.Closing? then Some(m.(phase := Over)) else None
  }

  /** Reads a whole log; None once an event is out of place. */
  function Watch(log: seq<Event>): Option<Monitor> {
    if log == [] then Some(Monitor(Waiting, [], {}))
    else
      var before := Watch(log[..|log| - 1]);
      if before.None? then None else Advance(before.value, log[|log| - 1])
  }

  lemma WatchMore(log: seq<Event>, e: Event)
    ensures Watch(log + [e]) == if Watch(log).None? then None else Advance(Watch(log).value, e)
  {
    assert (log + [e])[..|log|] == log;
  }

  // ---- what the reader's acceptance means ------------------------------------------------------

  /** The number of blocks started among the first n events. */
  function Starts(log: seq<Event>, n: nat): nat
    requires n <= |log|
  {
    if n == 0 then 0 else Starts(log, n - 1) + if log[n - 1].BlockStart? then 1 else 0
  }

  /** Block i of that kind was started at position p and nothing in p..n stops it. */
  ghost predicate OpenAt(log: seq<Event>, n: nat, i: nat, kind: Kind, p: nat) {
    && p < n <= |log| && log[p] == BlockStart(i, kind)
    && forall q :: p < q < n ==> log[q] != BlockStop(i)
  }

  /** Block i was stopped at position p, and only there. */
  ghost predicate StoppedOnceAt(log: seq<Event>, n: nat, i: nat, p: nat) {
    && p < n <= |log| && log[p] == BlockStop(i)
    && forall q :: 0 <= q < n && q != p ==> log[q] != BlockStop(i)
  }

  ghost predicate StoppedOnce(log: seq<Event>, i: nat) {
    exists p :: StoppedOnceAt(log, |log|, i, p)
  }

  ghost predicate IsOpen(log: seq<Event>, i: nat, kind: Kind) {
    exists p :: OpenAt(log, |log|, i, kind, p)
  }

  /** The claim about one position of the stream. */
  ghost predicate InPlace(log: seq<Event>, q: nat)
    requires q < |log|
  {
    && (log[q].MessageStart? <==> q == 0)
    && (q > 0 ==> !log[q - 1].MessageStop? && (log[q - 1].MessageDelta? <==> log[q].MessageStop?))
    && match log[q]
       case BlockStart(i, _) => i == Starts(log, q)
       case TextDelta(i, _) => exists p :: OpenAt(log, q, i, TextKind, p)
       case JsonDelta(i, _) => exists p, id, name :: OpenAt(log, q, i, ToolKind(id, name), p)
       case BlockStop(i) => exists p, kind :: OpenAt(log, q, i, kind, p)
       case _ => true
  }

  /** message_start first and once; blocks numbered 0, 1, 2, ...; every delta inside a started,
      unstopped block of its kind; every block stopped exactly once; message_delta then message_stop
      end it, and occur nowhere else. */
  ghost predicate WellFormed(log: seq<Event>) {
    && log != [] && log[|log| - 1].MessageStop?
    && (forall q :: 0 <= q < |log| ==> InPlace(log, q))
    && (forall i :: 0 <= i < Starts(log, |log|) ==> StoppedOnce(log, i))
  }

  /** What the monitor's fields say about the log it has read. */
  ghost predicate Means(log: seq<Event>, m: Monitor) {
    && |m.kinds| == Starts(log, |log|)
    && PhaseMeans(log, m)
    && (forall i :: i in m.open ==> i < |m.kinds| && IsOpen(log, i, m.kinds[i]))
    && (forall i :: 0 <= i < |m.kinds| && i !in m.open ==> StoppedOnce(log, i))
    && (forall q :: 0 <= q < |log| && log[q].BlockStop? ==> log[q].index < |m.kinds| && log[q].index !in m.open)
  }

  ghost predicate PhaseMeans(log: seq<Event>, m: Monitor) {
    && (m.phase.Waiting? <==> log == [])
    && (m.phase.Closing? <==> log != [] && log[|log| - 1].MessageDelta?)
    && (m.phase.Over? <==> log != [] && log[|log| - 1].MessageStop?)
    && (m.phase.Closing? || m.phase.Over? ==> m.open == {})
  }

  lemma {:induction false} StartsPrefix(log: seq<Event>, e: Event, n: nat)
    requires n <= |log|
    ensures Starts(log + [e], n) == Starts(log, n)
  {
    if n > 0 {
      StartsPrefix(log, e, n - 1);
    }
  }

  lemma OpenStays(log: seq<Event>, e: Event, i: nat, kind: Kind, p: nat)
    requires OpenAt(log, |log|, i, kind, p) && e != BlockStop(i)
    ensures OpenAt(log + [e], |log + [e]|, i, kind, p)
  {}

  lemma StopStays(log: seq<Event>, e: Event, i: nat, p: nat)
    requires StoppedOnceAt(log, |log|, i, p) && e != BlockStop(i)
    ensures StoppedOnceAt(log + [e], |log + [e]|, i, p)
  {}

  /** Blocks the new event does not stop keep their status. */
  lemma OthersKeep(log: seq<Event>, m: Monitor, e: Event)
    requires Means(log, m)
    ensures forall i :: i in m.open && e != BlockStop(i) ==>
      i < |m.kinds| && IsOpen(log + [e], i, m.kinds[i])
    ensures forall i :: 0 <= i < |m.kinds| && i !in m.open && e != BlockStop(i) ==>
      StoppedOnce(log + [e], i)
  {
    forall i | i in m.open && e != BlockStop(i)
      ensures IsOpen(log + [e], i, m.kinds[i])
    {
      var p :| OpenAt(log, |log|, i, m.kinds[i], p);
      OpenStays(log, e, i, m.kinds[i], p);
    }
    forall i | 0 <= i < |m.kinds| && i !in m.open && e != BlockStop(i)
      ensures StoppedOnce(log + [e], i)
    {
      var p :| StoppedOnceAt(log, |log|, i, p);
      StopStays(log, e, i, p);
    }
  }

  lemma MeansStep(log: seq<Event>, m: Monitor, e: Event, m': Monitor)
    requires Means(log, m) && Advance(m, e) == Some(m')
    ensures Means(log + [e], m')
  {
    var log' := log + [e];
    StartsPrefix(log, e, |log|);
    OthersKeep(log, m, e);
    hide IsOpen, StoppedOnce, Starts, Means;
    MeansCounts(log, m, e, m');
    MeansOpen(log, m, e, m');
    MeansStopped(log, m, e, m');
    MeansJoin(log', m');
  }

  lemma MeansJoin(log: seq<Event>, m: Monitor)
    requires |m.kinds| == Starts(log, |log|) && PhaseMeans(log, m)
    requires forall i :: i in m.open ==> i < |m.kinds| && IsOpen(log, i, m.kinds[i])
    requires forall i :: 0 <= i < |m.kinds| && i !in m.open ==> StoppedOnce(log, i)
    requires forall q :: 0 <= q < |log| && log[q].BlockStop? ==> log[q].index < |m.kinds| && log[q].index !in m.open
    ensures Means(log, m)
  {}

  lemma MeansCounts(log: seq<Event>, m: Monitor, e: Event, m': Monitor)
    requires Means(log, m) && Advance(m, e) == Some(m')
    ensures |m'.kinds| == Starts(log + [e], |log| + 1) && PhaseMeans(log + [e], m')
    ensures forall q :: 0 <= q < |log + [e]| && (log + [e])[q].BlockStop? ==>
      (log + [e])[q].index < |m'.kinds| && (log + [e])[q].index !in m'.open
  {
    StartsPrefix(log, e, |log|);
    hide IsOpen, StoppedOnce;
    forall q | 0 <= q < |log + [e]| && (log + [e])[q].BlockStop?
      ensures (log + [e])[q].index < |m'.kinds| && (log + [e])[q].index !in m'.open
    {
      if q < |log| { assert log[q].BlockStop?; }
    }
  }

  lemma MeansOpen(log: seq<Event>, m: Monitor, e: Event, m': Monitor)
    requires Means(log, m) && Advance(m, e) == Some(m')
    ensures forall i :: i in m'.open ==> i < |m'.kinds| && IsOpen(log + [e], i, m'.kinds[i])
  {
    OthersKeep(log, m, e);
    forall i | i in m'.open
      ensures i < |m'.kinds| && IsOpen(log + [e], i, m'.kinds[i])
    {
      if i !in m.open {
        assert OpenAt(log + [e], |log + [e]|, i, m'.kinds[i], |log|);
      } else {
        assert m'.kinds[i] == m.kinds[i] && e != BlockStop(i);
      }
    }
  }

  lemma MeansStopped(log: seq<Event>, m: Monitor, e: Event, m': Monitor)
    requires Means(log, m) && Advance(m, e) == Some(m')
    ensures forall i :: 0 <= i < |m'.kinds| && i !in m'.open ==> StoppedOnce(log + [e], i)
  {
    OthersKeep(log, m, e);
    forall i | 0 <= i < |m'.kinds| && i !in m'.open
      ensures StoppedOnce(log + [e], i)
    {
      if i in m.open {
        assert e == BlockStop(i);
        assert forall q :: 0 <= q < |log| ==> log[q] != BlockStop(i);
        assert StoppedOnceAt(log + [e], |log + [e]|, i, |log|);
      }
    }
  }

  lemma PlaceStep(log: seq<Event>, m: Monitor, e: Event)
    requires Means(log, m) && Advance(m, e).Some?
    ensures InPlace(log + [e], |log|)
  {
    StartsPrefix(log, e, |log|);
    var log' := log + [e];
    if e.TextDelta? || e.JsonDelta? || e.BlockStop? {
      var p :| OpenAt(log, |log|, e.index, m.kinds[e.index], p);
      assert OpenAt(log', |log|, e.index, m.kinds[e.index], p);
      if e.JsonDelta? {
        var kind := m.kinds[e.index];
        assert OpenAt(log', |log|, e.index, ToolKind(kind.id, kind.name), p);
      }
    }
  }

  lemma PlaceStays(log: seq<Event>, e: Event, q: nat)
    requires q < |log| && InPlace(log, q)
    ensures InPlace(log + [e], q)
  {
    StartsPrefix(log, e, q);
    var log' := log + [e];
    assert forall i, kind, p :: OpenAt(log, q, i, kind, p) ==> OpenAt(log', q, i, kind, p);
    hide Starts;
    match log[q]
    case TextDelta(i, _) =>
      var p :| OpenAt(log, q, i, TextKind, p);
      assert OpenAt(log', q, i, TextKind, p);
    case JsonDelta(i, _) =>
      var p, id, name :| OpenAt(log, q, i, ToolKind(id, name), p);
      assert OpenAt(log', q, i, ToolKind(id, name), p);
    case BlockStop(i) =>
      var p, kind :| OpenAt(log, q, i, kind, p);
      assert OpenAt(log', q, i, kind, p);
    case _ =>
  }

  lemma {:induction false} WatchMeans(log: seq<Event>)
    requires Watch(log).Some?
    ensures Means(log, Watch(log).value)
    ensures forall q :: 0 <= q < |log| ==> InPlace(log, q)
  {
    hide Means, InPlace, Advance;
    if log != [] {
      var n := |log| - 1;
      var before, e := log[..n], log[n];
      assert log == before + [e];
      WatchMeans(before);
      var m := Watch(before).value;
      MeansStep(before, m, e, Watch(log).value);
      PlaceStep(before, m, e);
      forall q | 0 <= q < n ensures InPlace(log, q) {
        PlaceStays(before, e, q);
      }
    } else {
      EmptyMeans();
    }
  }

  lemma EmptyMeans()
    ensures Means([], Monitor(Waiting, [], {}))
  {}

  /** The reader accepts a log to its end only if the log is well formed in the plain sense. */
  lemma AcceptedIsWellFormed(log: seq<Event>)
    requires Watch(log).Some? && Watch(log).value.phase.Over?
    ensures WellFormed(log)
  {
    WatchMeans(log);
    var m := Watch(log).value;
    hide Watch, InPlace;
    assert m.open == {};
    forall i | 0 <= i < Starts(log, |log|) ensures StoppedOnce(log, i) {
      assert i !in m.open;
    }
  }

  // ---- the translator under the reader's eyes --------------------------------------------------

  ghost predicate OwnedBy(t: Translator, i: nat) {
    (t.textOpen && i == t.textIndex) || exists k :: k in t.toolBlocks && t.toolBlocks[k].openIndex == i && !t.toolBlocks[k].closed
  }

  /** The translator's fields agree with what a reader has seen. */
  ghost predicate Tracks(t: Translator, m: Monitor) {
    && |m.kinds| == t.nextIndex
    && (t.textOpen ==> t.textIndex in m.open && t.textIndex < |m.kinds| && m.kinds[t.textIndex].TextKind?)
    && (forall k :: k in t.toolBlocks ==>
          && t.toolBlocks[k].openIndex < |m.kinds| && m.kinds[t.toolBlocks[k].openIndex].ToolKind?
          && (!t.toolBlocks[k].closed ==> t.toolBlocks[k].openIndex in m.open))
    && (forall i :: i in m.open ==> OwnedBy(t, i))
    && (forall k :: k in t.toolBlocks <==> k in t.toolBlockKeys)
    && (forall k, l :: k in t.toolBlocks && l in t.toolBlocks && k != l ==> t.toolBlocks[k].openIndex != t.toolBlocks[l].openIndex)
  }

  /** In the middle of a message. */
  ghost predicate Live(t: Translator) {
    t.started && Watch(t.out).Some? && Watch(t.out).value.phase.Streaming? && Tracks(t, Watch(t.out).value)
  }

  ghost predicate AllOpen(t: Translator) {
    forall k :: k in t.toolBlocks ==> !t.toolBlocks[k].closed
  }

  /** Nothing written yet. */
  ghost predicate Silent(t: Translator) {
    !t.started && t.out == [] && !t.textOpen && t.nextIndex == 0 && t.toolBlocks == map[] && t.toolBlockKeys == []
  }

  ghost predicate Open(t: Translator) {
    (Silent(t) || Live(t)) && AllOpen(t) && (t.hasContent <==> t.started)
  }

  lemma StartLive(t: Translator)
    requires (Silent(t) || Live(t)) && AllOpen(t)
    ensures Live(EnsureStarted(t)) && AllOpen(EnsureStarted(t))
    ensures EnsureStarted(t).hasContent == t.hasContent && EnsureStarted(t).toolBlocks == t.toolBlocks
  {
    if !t.started {
      WatchMore([], MessageStart(FirstNonEmpty(t.messageID, ""), t.model));
    }
    hide FirstNonEmpty;
  }

  lemma OpenTextLive(t: Translator)
    requires Live(t)
    ensures Live(EnsureTextBlock(t)) && EnsureTextBlock(t).textOpen
    ensures EnsureTextBlock(t).toolBlocks == t.toolBlocks
  {
    WatchMore(t.out, BlockStart(t.nextIndex, TextKind));
    hide Watch;
    var m, t' := Watch(t.out).value, EnsureTextBlock(t);
    if !t.textOpen {
      var m' := Watch(t'.out).value;
      forall i | i in m'.open ensures OwnedBy(t', i) {
        if i != t.nextIndex { assert OwnedBy(t, i); }
      }
    }
  }

  lemma CloseTextLive(t: Translator)
    requires Live(t)
    ensures Live(CloseTextBlock(t)) && !CloseTextBlock(t).textOpen
    ensures CloseTextBlock(t).toolBlocks == t.toolBlocks && CloseTextBlock(t).toolBlockKeys == t.toolBlockKeys
  {
    if t.textOpen {
      WatchMore(t.out, BlockStop(t.textIndex));
      hide Watch;
      var t' := CloseTextBlock(t);
      var m' := Watch(t'.out).value;
      forall i | i in m'.open ensures OwnedBy(t', i) {
        assert OwnedBy(t, i);
      }
    }
  }

  lemma DeltaLive(t: Translator, e: Event)
    requires Live(t)
    requires (e.TextDelta? && t.textOpen && e.index == t.textIndex)
          || (e.JsonDelta? && exists k :: k in t.toolBlocks && !t.toolBlocks[k].closed && t.toolBlocks[k].openIndex == e.index)
    ensures Live(Emit(t, e))
  {
    WatchMore(t.out, e);
    hide Watch;
    forall i | i in Watch(t.out).value.open ensures OwnedBy(Emit(t, e), i) {
      assert OwnedBy(t, i);
    }
  }

  lemma OldToolLive(t: Translator, call: ToolCall)
    requires Live(t) && call.index in t.toolBlocks
    ensures Live(OpenToolBlock(t, call)) && OpenToolBlock(t, call).out == t.out
    ensures OpenToolBlock(t, call).toolBlocks.Keys == t.toolBlocks.Keys
    ensures forall k :: k in t.toolBlocks ==>
      && OpenToolBlock(t, call).toolBlocks[k].openIndex == t.toolBlocks[k].openIndex
      && OpenToolBlock(t, call).toolBlocks[k].closed == t.toolBlocks[k].closed
  {
    hide Watch;
    var t' := OpenToolBlock(t, call);
    assert forall k :: k in t.toolBlocks ==>
      t'.toolBlocks[k].openIndex == t.toolBlocks[k].openIndex && t'.toolBlocks[k].closed == t.toolBlocks[k].closed;
    forall i | i in Watch(t.out).value.open ensures OwnedBy(t', i) {
      assert OwnedBy(t, i);
      if !(t.textOpen && i == t.textIndex) {
        var k :| k in t.toolBlocks && t.toolBlocks[k].openIndex == i && !t.toolBlocks[k].closed;
        assert k in t'.toolBlocks && t'.toolBlocks[k].openIndex == i && !t'.toolBlocks[k].closed;
      }
    }
  }

  lemma NewToolLive(t: Translator, call: ToolCall)
    requires Live(t) && call.index !in t.toolBlocks
    ensures Live(OpenToolBlock(t, call))
    ensures OpenToolBlock(t, call).toolBlocks == t.toolBlocks[call.index := NewBlock(t, call)]
  {
    var b := NewBlock(t, call);
    WatchMore(t.out, BlockStart(b.openIndex, ToolKind(b.toolID, b.toolName)));
    hide Watch, FirstNonEmpty, Decimal;
    var t' := OpenToolBlock(t, call);
    var m' := Watch(t'.out).value;
    forall i | i in m'.open ensures OwnedBy(t', i) {
      if i == t.nextIndex {
        assert t'.toolBlocks[call.index].openIndex == i;
      } else {
        assert OwnedBy(t, i);
        if !(t.textOpen && i == t.textIndex) {
          var k :| k in t.toolBlocks && t.toolBlocks[k].openIndex == i && !t.toolBlocks[k].closed;
          assert k in t'.toolBlocks && t'.toolBlocks[k] == t.toolBlocks[k];
        }
      }
    }
  }

  lemma ToolCallLive(t: Translator, call: ToolCall)
    requires Live(t) && AllOpen(t)
    ensures Live(ConsumeToolCall(t, call)) && AllOpen(ConsumeToolCall(t, call))
    ensures ConsumeToolCall(t, call).hasContent == t.hasContent
    ensures ConsumeToolCall(t, call).toolBlocks.Keys == t.toolBlocks.Keys + {call.index}
  {
    hide Live, AllOpen, OpenToolBlock;
    OpenToolLive(t, call);
    var t1 := OpenToolBlock(t, call);
    if call.arguments != "" {
      ArgumentsLive(t1, call);
    }
  }

  lemma OpenToolLive(t: Translator, call: ToolCall)
    requires Live(t) && AllOpen(t)
    ensures var u := OpenToolBlock(t, call);
            && Live(u) && AllOpen(u) && u.hasContent == t.hasContent && u.toolBlocks.Keys == t.toolBlocks.Keys + {call.index}
  {
    hide Live;
    if call.index in t.toolBlocks {
      OldToolLive(t, call);
    } else {
      NewToolLive(t, call);
    }
  }

  lemma ArgumentsLive(t: Translator, call: ToolCall)
    requires Live(t) && AllOpen(t) && call.index in t.toolBlocks
    ensures var u := Emit(t, JsonDelta(t.toolBlocks[call.index].openIndex, call.arguments)); Live(u) && AllOpen(u)
  {
    hide Live;
    DeltaLive(t, JsonDelta(t.toolBlocks[call.index].openIndex, call.arguments));
  }

  lemma {:induction false} ToolCallsLive(t: Translator, calls: seq<ToolCall>, n: nat)
    requires Live(t) && AllOpen(t) && n <= |calls|
    ensures Live(ConsumeToolCalls(t, calls, n)) && AllOpen(ConsumeToolCalls(t, calls, n))
    ensures ConsumeToolCalls(t, calls, n).hasContent == t.hasContent
  {
    hide Live, AllOpen, ConsumeToolCall;
    if n > 0 {
      ToolCallsLive(t, calls, n - 1);
      ToolCallLive(ConsumeToolCalls(t, calls, n - 1), calls[n - 1]);
    }
  }

  /** Does the choice carry anything the client will see? */
  predicate ChoiceHasContent(choice: Choice) {
    choice.content != "" || AnyMeaningful(choice.toolCalls)
  }

  predicate ChunkHasContent(chunk: Chunk) {
    exists i :: 0 <= i < |chunk.choices| && ChoiceHasContent(chunk.choices[i])
  }

  lemma ContentOpen(t: Translator, content: string)
    requires Open(t)
    ensures Open(ConsumeContent(t, content))
    ensures ConsumeContent(t, content).started == (t.started || content != "")
    ensures ConsumeContent(t, content).finished == t.finished
  {
    if content != "" {
      hide Live;
      var t1 := t.(hasContent := true);
      assert Live(t) ==> Live(t1) by { SameFieldsLive(t, t1); }
      StartLive(t1);
      OpenTextLive(EnsureStarted(t1));
      var t2 := EnsureTextBlock(EnsureStarted(t1));
      DeltaLive(t2, TextDelta(t2.textIndex, content));
      LiveStarted(Emit(t2, TextDelta(t2.textIndex, content)));
    }
  }

  lemma LiveStarted(t: Translator)
    requires Live(t)
    ensures t.started && t.out != []
  {}

  /** Live looks at the stream fields only. */
  lemma SameFieldsLive(t: Translator, u: Translator)
    requires u == t.(messageID := u.messageID, model := u.model, usage := u.usage, finishReason := u.finishReason,
                     hasContent := u.hasContent, finished := u.finished)
    ensures Live(u) == Live(t) && Silent(u) == Silent(t) && AllOpen(u) == AllOpen(t)
  {}

  lemma ToolsOpen(t: Translator, calls: seq<ToolCall>)
    requires Open(t)
    ensures Open(ConsumeTools(t, calls))
    ensures ConsumeTools(t, calls).started == (t.started || AnyMeaningful(calls))
  {
    hide Live, AnyMeaningful, AllOpen;
    if AnyMeaningful(calls) {
      var t1 := t.(hasContent := true);
      SameFieldsLive(t, t1);
      StartLive(t1);
      CloseTextOpen(EnsureStarted(t1));
      ToolCallsLive(CloseTextBlock(EnsureStarted(t1)), calls, |calls|);
      LiveStarted(ConsumeTools(t, calls));
    }
  }

  lemma CloseTextOpen(t: Translator)
    requires Live(t) && AllOpen(t)
    ensures Live(CloseTextBlock(t)) && AllOpen(CloseTextBlock(t)) && CloseTextBlock(t).hasContent == t.hasContent
  {
    CloseTextLive(t);
    hide Live;
  }

  lemma ChoiceOpen(t: Translator, choice: Choice)
    requires Open(t)
    ensures Open(ConsumeChoice(t, choice))
    ensures ConsumeChoice(t, choice).started == (t.started || ChoiceHasContent(choice))
  {
    hide Open, ConsumeContent, ConsumeTools, AnyMeaningful;
    ContentOpen(t, choice.content);
    var t1 := ConsumeTools(ConsumeContent(t, choice.content), choice.toolCalls);
    ToolsOpen(ConsumeContent(t, choice.content), choice.toolCalls);
    SameFieldsOpen(t1, NoteFinish(t1, choice.finishReason));
  }

  lemma SameFieldsOpen(t: Translator, u: Translator)
    requires u == t.(messageID := u.messageID, model := u.model, usage := u.usage, finishReason := u.finishReason,
                     finished := u.finished)
    ensures Open(u) == Open(t)
  {}

  lemma {:induction false} ChoicesOpen(t: Translator, choices: seq<Choice>, n: nat)
    requires Open(t) && n <= |choices|
    ensures Open(ConsumeChoices(t, choices, n))
    ensures ConsumeChoices(t, choices, n).started
        <==> t.started || exists i :: 0 <= i < n && ChoiceHasContent(choices[i])
  {
    hide Open, ConsumeChoice, ChoiceHasContent;
    if n > 0 {
      ChoicesOpen(t, choices, n - 1);
      ChoiceOpen(ConsumeChoices(t, choices, n - 1), choices[n - 1]);
    }
  }

  /** Each chunk keeps the stream open and starts it exactly if it has content. */
  lemma ChunkOpen(t: Translator, chunk: Chunk)
    requires Open(t)
    ensures Open(ConsumeChunk(t, chunk))
    ensures ConsumeChunk(t, chunk).started <==> t.started || ChunkHasContent(chunk)
  {
    hide Open, NoteHeader, ConsumeChoices, ChoiceHasContent;
    HeaderKeepsStarted(t, chunk);
    SameFieldsOpen(t, NoteHeader(t, chunk));
    ChoicesOpen(NoteHeader(t, chunk), chunk.choices, |chunk.choices|);
  }

  lemma HeaderKeepsStarted(t: Translator, chunk: Chunk)
    ensures var u := NoteHeader(t, chunk);
            u == t.(messageID := u.messageID, model := u.model, usage := u.usage)
  {
    hide FirstNonEmpty;
  }

  // ---- Finish ----------------------------------------------------------------------------------

  lemma CloseBlockLive(t: Translator, key: int)
    requires Live(t) && !t.textOpen
    ensures Live(CloseBlock(t, key)) && !CloseBlock(t, key).textOpen
    ensures CloseBlock(t, key).toolBlockKeys == t.toolBlockKeys
    ensures CloseBlock(t, key).toolBlocks.Keys == t.toolBlocks.Keys
    ensures key in t.toolBlocks ==> CloseBlock(t, key).toolBlocks[key].closed
    ensures forall k :: k in t.toolBlocks && t.toolBlocks[k].closed ==> CloseBlock(t, key).toolBlocks[k].closed
  {
    if key in t.toolBlocks && !t.toolBlocks[key].closed {
      WatchMore(t.out, BlockStop(t.toolBlocks[key].openIndex));
      hide Watch;
      var t' := CloseBlock(t, key);
      forall i | i in Watch(t'.out).value.open ensures OwnedBy(t', i) {
        assert OwnedBy(t, i);
        var k :| k in t.toolBlocks && t.toolBlocks[k].openIndex == i && !t.toolBlocks[k].closed;
        assert k in t'.toolBlocks && t'.toolBlocks[k] == t.toolBlocks[k];
      }
    }
  }

  lemma {:induction false} CloseBlocksLive(t: Translator, n: nat)
    requires Live(t) && !t.textOpen && n <= |t.toolBlockKeys|
    ensures var u := CloseBlocks(t, n);
            && Live(u) && !u.textOpen && u.toolBlockKeys == t.toolBlockKeys && u.toolBlocks.Keys == t.toolBlocks.Keys
            && forall i :: 0 <= i < n && t.toolBlockKeys[i] in t.toolBlocks ==> u.toolBlocks[t.toolBlockKeys[i]].closed
  {
    hide Live, CloseBlock;
    if n > 0 {
      CloseBlocksLive(t, n - 1);
      var u := CloseBlocks(t, n - 1);
      CloseBlockLive(u, t.toolBlockKeys[n - 1]);
      forall i | 0 <= i < n && t.toolBlockKeys[i] in t.toolBlocks
        ensures CloseBlocks(t, n).toolBlocks[t.toolBlockKeys[i]].closed
      {
        var k := t.toolBlockKeys[i];
        assert k in u.toolBlocks;
        if i < n - 1 { assert u.toolBlocks[k].closed; }
      }
    }
  }

  lemma ClosingEvents(t: Translator, a: Event, b: Event)
    requires Live(t) && !t.textOpen && (forall k :: k in t.toolBlocks ==> t.toolBlocks[k].closed)
    requires a.MessageDelta? && b.MessageStop?
    ensures var w := Watch(t.out + [a] + [b]); w.Some? && w.value.phase.Over?
  {
    hide Watch, Tracks;
    NothingOpen(t);
    WatchMore(t.out, a);
    WatchMore(t.out + [a], b);
  }

  lemma NothingOpen(t: Translator)
    requires Live(t) && !t.textOpen && (forall k :: k in t.toolBlocks ==> t.toolBlocks[k].closed)
    ensures Watch(t.out).value.open == {}
  {
    hide Watch;
    forall i ensures i !in Watch(t.out).value.open {
      assert !OwnedBy(t, i);
    }
  }

  /** What is left after Finish, whether or not more chunks arrive. */
  ghost predicate Sealed(t: Translator) {
    && t.finished && !t.textOpen
    && (if t.started then Watch(t.out).Some? && Watch(t.out).value.phase.Over? else t.out == [])
  }

  lemma FinishSeals(t: Translator)
    requires Open(t) && !t.finished
    ensures Sealed(Finished(t)) && Finished(t).started == t.started
    ensures Finished(t).toolBlocks.Keys == t.toolBlocks.Keys
  {
    if t.started {
      CloseTextLive(t);
      var t1 := CloseTextBlock(t);
      CloseBlocksLive(t1, |t1.toolBlockKeys|);
      var t2 := CloseBlocks(t1, |t1.toolBlockKeys|);
      assert forall k :: k in t2.toolBlocks ==> t2.toolBlocks[k].closed;
      ClosingEvents(t2, MessageDelta(MapFinishReason(t2.finishReason), t2.usage), MessageStop);
      hide CloseTextBlock, CloseBlocks, MapFinishReason, Watch;
      LiveStarted(t2);
    }
  }

  // ---- chunks after Finish ---------------------------------------------------------------------

  /** u continues t's stream without ending it. */
  ghost predicate Grows(t: Translator, u: Translator) {
    && t.out <= u.out && u.finished == t.finished
    && (u.out == t.out || !u.out[|u.out| - 1].MessageStop?)
  }

  function IndicesOf(calls: seq<ToolCall>, n: nat): set<int>
    requires n <= |calls|
  {
    set i | 0 <= i < n :: calls[i].index
  }

  /** Does a passed-on list write anything, given the tool indices already seen? */
  predicate ToolsWrite(calls: seq<ToolCall>, seen: set<int>) {
    exists i :: 0 <= i < |calls| && (calls[i].arguments != "" || calls[i].index !in seen)
  }

  /** Would the choice write anything once the stream was finished? */
  predicate ChoiceEmits(choice: Choice, started: bool, seen: set<int>) {
    choice.content != "" || (AnyMeaningful(choice.toolCalls) && (!started || ToolsWrite(choice.toolCalls, seen)))
  }

  predicate ChunkEmits(chunk: Chunk, started: bool, seen: set<int>) {
    exists i :: 0 <= i < |chunk.choices| && ChoiceEmits(chunk.choices[i], started, seen)
  }

  /** Neither the stream nor what decides about writing has changed. */
  ghost predicate Unmoved(t: Translator, u: Translator) {
    u.out == t.out && u.started == t.started && u.toolBlocks.Keys == t.toolBlocks.Keys && !u.textOpen
  }

  lemma ToolCallGrows(t: Translator, call: ToolCall)
    ensures Grows(t, ConsumeToolCall(t, call))
    ensures ConsumeToolCall(t, call).toolBlocks.Keys == t.toolBlocks.Keys + {call.index}
    ensures ConsumeToolCall(t, call).started == t.started && ConsumeToolCall(t, call).textOpen == t.textOpen
    ensures ConsumeToolCall(t, call).out == t.out <==> call.arguments == "" && call.index in t.toolBlocks
  {
    hide NewBlock, OpenToolBlock;
    OpenToolGrows(t, call);
  }

  lemma OpenToolGrows(t: Translator, call: ToolCall)
    ensures var u := OpenToolBlock(t, call);
            && Grows(t, u) && u.toolBlocks.Keys == t.toolBlocks.Keys + {call.index}
            && u.started == t.started && u.textOpen == t.textOpen && u.finished == t.finished
            && if call.index in t.toolBlocks then u.out == t.out else |u.out| == |t.out| + 1
  {
    hide NewBlock;
  }

  lemma {:induction false} ToolCallsGrow(t: Translator, calls: seq<ToolCall>, n: nat)
    requires n <= |calls|
    ensures var u := ConsumeToolCalls(t, calls, n);
            && Grows(t, u) && u.toolBlocks.Keys == t.toolBlocks.Keys + IndicesOf(calls, n)
            && u.started == t.started && u.textOpen == t.textOpen
            && (u.out == t.out <==> forall i :: 0 <= i < n ==> calls[i].arguments == "" && calls[i].index in t.toolBlocks)
  {
    hide ConsumeToolCall;
    if n > 0 {
      ToolCallsGrow(t, calls, n - 1);
      ToolCallGrows(ConsumeToolCalls(t, calls, n - 1), calls[n - 1]);
      assert IndicesOf(calls, n) == IndicesOf(calls, n - 1) + {calls[n - 1].index};
      if forall i :: 0 <= i < n - 1 ==> calls[i].arguments == "" && calls[i].index in t.toolBlocks {
        assert forall x :: x in IndicesOf(calls, n - 1) ==> x in t.toolBlocks;
      }
    }
  }

  lemma LateTools(t: Translator, calls: seq<ToolCall>)
    requires !t.textOpen
    ensures Grows(t, ConsumeTools(t, calls))
    ensures if AnyMeaningful(calls) && (!t.started || ToolsWrite(calls, t.toolBlocks.Keys))
            then ConsumeTools(t, calls).out != t.out else Unmoved(t, ConsumeTools(t, calls))
  {
    hide AnyMeaningful, FirstNonEmpty, Meaningful;
    if AnyMeaningful(calls) {
      var t1 := EnsureStarted(t.(hasContent := true));
      ToolCallsGrow(t1, calls, |calls|);
      assert forall i :: 0 <= i < |calls| ==> calls[i].index in IndicesOf(calls, |calls|);
    }
  }

  lemma LateContent(t: Translator, content: string)
    requires !t.textOpen
    ensures Grows(t, ConsumeContent(t, content))
    ensures if content != "" then ConsumeContent(t, content).out != t.out else ConsumeContent(t, content) == t
  {}

  lemma ContentGrows(t: Translator, content: string)
    ensures Grows(t, ConsumeContent(t, content))
    ensures ConsumeContent(t, content).toolBlocks == t.toolBlocks
  {
    hide FirstNonEmpty;
  }

  lemma ToolsGrow(t: Translator, calls: seq<ToolCall>)
    ensures Grows(t, ConsumeTools(t, calls))
    ensures ConsumeTools(t, calls).toolBlocks.Keys
         == t.toolBlocks.Keys + if AnyMeaningful(calls) then IndicesOf(calls, |calls|) else {}
  {
    hide FirstNonEmpty, AnyMeaningful, ConsumeToolCalls;
    ToolCallsGrow(CloseTextBlock(EnsureStarted(t.(hasContent := true))), calls, |calls|);
  }

  /** The tool indices a choice lets through the gate. */
  function PassedIndices(choice: Choice): set<int> {
    if AnyMeaningful(choice.toolCalls) then IndicesOf(choice.toolCalls, |choice.toolCalls|) else {}
  }

  /** Writing happens on top of what is there already. */
  lemma AnyGrows(t: Translator, choice: Choice)
    ensures Grows(t, ConsumeChoice(t, choice))
    ensures ConsumeChoice(t, choice).toolBlocks.Keys == t.toolBlocks.Keys + PassedIndices(choice)
  {
    hide ConsumeContent, ConsumeTools, AnyMeaningful, IndicesOf;
    ContentGrows(t, choice.content);
    ToolsGrow(ConsumeContent(t, choice.content), choice.toolCalls);
  }

  lemma LateChoice(t: Translator, choice: Choice)
    requires !t.textOpen
    ensures Grows(t, ConsumeChoice(t, choice))
    ensures if ChoiceEmits(choice, t.started, t.toolBlocks.Keys)
            then ConsumeChoice(t, choice).out != t.out else Unmoved(t, ConsumeChoice(t, choice))
  {
    AnyGrows(t, choice);
    LateContent(t, choice.content);
    hide ConsumeContent, ConsumeTools, AnyMeaningful;
    if choice.content == "" {
      LateTools(t, choice.toolCalls);
    } else {
      ToolsGrow(ConsumeContent(t, choice.content), choice.toolCalls);
    }
  }

  lemma {:induction false} LateChoices(t: Translator, choices: seq<Choice>, n: nat)
    requires !t.textOpen && n <= |choices|
    ensures Grows(t, ConsumeChoices(t, choices, n))
    ensures if exists i :: 0 <= i < n && ChoiceEmits(choices[i], t.started, t.toolBlocks.Keys)
            then ConsumeChoices(t, choices, n).out != t.out else Unmoved(t, ConsumeChoices(t, choices, n))
  {
    hide ConsumeChoice, ChoiceEmits;
    if n > 0 {
      LateChoices(t, choices, n - 1);
      var u := ConsumeChoices(t, choices, n - 1);
      AnyGrows(u, choices[n - 1]);
      if !u.textOpen && Unmoved(t, u) {
        LateChoice(u, choices[n - 1]);
      }
    }
  }

  /** A chunk after Finish either leaves everything alone or writes after the end. */
  lemma LateChunk(t: Translator, chunk: Chunk)
    requires !t.textOpen
    ensures Grows(t, ConsumeChunk(t, chunk))
    ensures if ChunkEmits(chunk, t.started, t.toolBlocks.Keys)
            then ConsumeChunk(t, chunk).out != t.out else Unmoved(t, ConsumeChunk(t, chunk))
  {
    HeaderKeepsStarted(t, chunk);
    var u := NoteHeader(t, chunk);
    hide NoteHeader, ChoiceEmits, ConsumeChoices;
    LateChoices(u, chunk.choices, |chunk.choices|);
  }

  function ChoicesIndices(choices: seq<Choice>, n: nat): set<int>
    requires n <= |choices|
  {
    if n == 0 then {} else ChoicesIndices(choices, n - 1) + PassedIndices(choices[n - 1])
  }

  lemma {:induction false} ChoicesKeys(t: Translator, choices: seq<Choice>, n: nat)
    requires n <= |choices|
    ensures ConsumeChoices(t, choices, n).toolBlocks.Keys == t.toolBlocks.Keys + ChoicesIndices(choices, n)
    ensures ConsumeChoices(t, choices, n).finished == t.finished
  {
    hide ConsumeChoice, PassedIndices;
    if n > 0 {
      ChoicesKeys(t, choices, n - 1);
      AnyGrows(ConsumeChoices(t, choices, n - 1), choices[n - 1]);
    }
  }

  lemma ChunkKeys(t: Translator, chunk: Chunk)
    ensures ConsumeChunk(t, chunk).toolBlocks.Keys == t.toolBlocks.Keys + ChoicesIndices(chunk.choices, |chunk.choices|)
    ensures ConsumeChunk(t, chunk).finished == t.finished
  {
    HeaderKeepsStarted(t, chunk);
    hide NoteHeader, ConsumeChoices, ChoicesIndices;
    ChoicesKeys(NoteHeader(t, chunk), chunk.choices, |chunk.choices|);
  }

  // ---- whole runs ------------------------------------------------------------------------------

  /** What the relay calls, in any order. */
  datatype Op = Consume(chunk: Chunk) | Finish

  function Apply(t: Translator, op: Op): Translator {
    match op
    case Consume(chunk) => ConsumeChunk(t, chunk)
    case Finish => Finished(t)
  }

  /** The translator after the first n calls. */
  function Play(model: string, ops: seq<Op>, n: nat): Translator
    requires n <= |ops|
  {
    if n == 0 then Fresh(model) else Apply(Play(model, ops, n - 1), ops[n - 1])
  }

  /** Some of the first n calls brought content. */
  predicate AnyContent(ops: seq<Op>, n: nat)
    requires n <= |ops|
  {
    n > 0 && (AnyContent(ops, n - 1) || (ops[n - 1].Consume? && ChunkHasContent(ops[n - 1].chunk)))
  }

  predicate AnyFinish(ops: seq<Op>, n: nat)
    requires n <= |ops|
  {
    n > 0 && (AnyFinish(ops, n - 1) || ops[n - 1].Finish?)
  }

  /** The tool indices let through so far. */
  function SeenIndices(ops: seq<Op>, n: nat): set<int>
    requires n <= |ops|
  {
    if n == 0 then {}
    else
      var passed := if ops[n - 1].Consume? then ChoicesIndices(ops[n - 1].chunk.choices, |ops[n - 1].chunk.choices|) else {};
      SeenIndices(ops, n - 1) + passed
  }

  /** Some chunk after a Finish asks for something to be written. */
  predicate WritesAfterFinish(ops: seq<Op>, n: nat)
    requires n <= |ops|
  {
    n > 0 && (WritesAfterFinish(ops, n - 1)
      || (AnyFinish(ops, n - 1) && ops[n - 1].Consume?
          && ChunkEmits(ops[n - 1].chunk, AnyContent(ops, n - 1), SeenIndices(ops, n - 1))))
  }

  /** Where the translator stands after n calls, read off the calls alone. */
  ghost predicate Stands(t: Translator, ops: seq<Op>, n: nat)
    requires n <= |ops|
  {
    if WritesAfterFinish(ops, n) then
      t.finished && t.out != [] && !t.out[|t.out| - 1].MessageStop?
    else
      && t.started == AnyContent(ops, n) && t.toolBlocks.Keys == SeenIndices(ops, n)
      && (if AnyFinish(ops, n) then Sealed(t) else Open(t) && !t.finished)
  }

  lemma FreshOpen(model: string)
    ensures Open(Fresh(model))
  {}

  lemma UnmovedSealed(t: Translator, u: Translator)
    requires Sealed(t) && Unmoved(t, u) && u.finished
    ensures Sealed(u)
  {}

  lemma EmitsNeedsContent(chunk: Chunk, seen: set<int>)
    ensures ChunkHasContent(chunk) == ChunkEmits(chunk, false, seen)
  {}

  lemma StandsConsume(t: Translator, ops: seq<Op>, n: nat)
    requires n < |ops| && Stands(t, ops, n) && ops[n].Consume?
    ensures Stands(ConsumeChunk(t, ops[n].chunk), ops, n + 1)
  {
    var chunk := ops[n].chunk;
    var u := ConsumeChunk(t, chunk);
    ChunkKeys(t, chunk);
    hide ConsumeChunk, ChunkHasContent, ChunkEmits, Open, ChoicesIndices;
    if WritesAfterFinish(ops, n) {
      ChunkGrowsAny(t, chunk);
    } else if AnyFinish(ops, n) {
      LateChunk(t, chunk);
      if ChunkEmits(chunk, t.started, t.toolBlocks.Keys) {
      } else {
        UnmovedSealed(t, u);
        EmitsNeedsContent(chunk, t.toolBlocks.Keys);
      }
    } else {
      ChunkOpen(t, chunk);
    }
  }

  lemma ChunkGrowsAny(t: Translator, chunk: Chunk)
    ensures Grows(t, ConsumeChunk(t, chunk))
  {
    HeaderKeepsStarted(t, chunk);
    hide NoteHeader, ConsumeChoices;
    ChoicesGrowAny(NoteHeader(t, chunk), chunk.choices, |chunk.choices|);
  }

  lemma {:induction false} ChoicesGrowAny(t: Translator, choices: seq<Choice>, n: nat)
    requires n <= |choices|
    ensures Grows(t, ConsumeChoices(t, choices, n))
  {
    hide ConsumeChoice;
    if n > 0 {
      ChoicesGrowAny(t, choices, n - 1);
      AnyGrows(ConsumeChoices(t, choices, n - 1), choices[n - 1]);
    }
  }

  lemma StandsFinish(t: Translator, ops: seq<Op>, n: nat)
    requires n < |ops| && Stands(t, ops, n) && ops[n].Finish?
    ensures Stands(Finished(t), ops, n + 1)
  {
    hide Open, ChunkEmits;
    if t.finished {
      assert Finished(t) == t;
    } else {
      FinishSeals(t);
      hide Finished;
    }
  }

  lemma {:induction false} PlayStands(model: string, ops: seq<Op>, n: nat)
    requires n <= |ops|
    ensures Stands(Play(model, ops, n), ops, n)
  {
    hide Stands, ConsumeChunk, Finished;
    if n > 0 {
      PlayStands(model, ops, n - 1);
      if ops[n - 1].Consume? {
        StandsConsume(Play(model, ops, n - 1), ops, n - 1);
      } else {
        StandsFinish(Play(model, ops, n - 1), ops, n - 1);
      }
    } else {
      FreshStands(model, ops);
    }
  }

  lemma FreshStands(model: string, ops: seq<Op>)
    ensures Stands(Fresh(model), ops, 0)
  {
    FreshOpen(model);
    hide Open;
  }

  /** A stream still open is empty or lacks its end. */
  lemma OpenIsUnfinished(t: Translator)
    requires Open(t)
    ensures t.out == [] <==> !t.started
    ensures t.started ==> !WellFormed(t.out)
  {
    if t.started {
      WatchMeans(t.out);
      hide Watch;
    }
  }

  /** For every sequence of calls: the client gets nothing or one well-formed stream exactly when
      nothing is written after the first Finish and any content is followed by a Finish. */
  lemma StreamsAreWellFormed(model: string, ops: seq<Op>)
    ensures var log := Play(model, ops, |ops|).out;
            log == [] || WellFormed(log) <==>
              !WritesAfterFinish(ops, |ops|) && (AnyContent(ops, |ops|) ==> AnyFinish(ops, |ops|))
  {
    PlayStands(model, ops, |ops|);
    var t := Play(model, ops, |ops|);
    hide Play, Watch, InPlace, Starts, StoppedOnce;
    if !WritesAfterFinish(ops, |ops|) {
      if AnyFinish(ops, |ops|) {
        if t.started { AcceptedIsWellFormed(t.out); }
      } else {
        OpenIsUnfinished(t);
      }
    }
  }

  /** The retry loops rely on this: as long as Finish comes last, something is written exactly when
      some chunk had content, and hasContent says the same. */
  lemma StartedIffContent(model: string, ops: seq<Op>)
    requires !WritesAfterFinish(ops, |ops|)
    ensures var t := Play(model, ops, |ops|);
            && (t.started <==> AnyContent(ops, |ops|))
            && (t.out != [] <==> AnyContent(ops, |ops|))
  {
    PlayStands(model, ops, |ops|);
    var t := Play(model, ops, |ops|);
    hide Play;
    if AnyFinish(ops, |ops|) {
    } else {
      OpenIsUnfinished(t);
    }
  }
}

/** Whole Responses streams: what a client has received once every chunk is consumed and the
    translator is finished. */
module ResponsesOutcome {
  import opened Text
  import opened Chunks
  import opened Sorting
  import opened ResponsesStream
  import opened ResponsesTheorems

  // ---- what one atom changes -------------------------------------------------------------------

  lemma ContentEffect(t: Translator, text: string)
    ensures var u := ConsumeContent(t, text);
            && u.functionCalls == t.functionCalls && u.functionIndexes == t.functionIndexes && u.completed == t.completed
            && u.messageText == t.messageText + text
            && (u.messageStarted <==> t.messageStarted || text != "")
            && (u.headersWritten <==> t.headersWritten || text != "")
            && (u.hasContent <==> t.hasContent || text != "")
  {}

  function Held(t: Translator, k: int): string {
    if k in t.functionCalls then t.functionCalls[k].arguments else ""
  }

  lemma CallEffect(t: Translator, call: ToolCall)
    ensures var u := ConsumeToolCall(t, call);
            && u.messageText == t.messageText && u.messageStarted == t.messageStarted && u.completed == t.completed
            && (u.headersWritten <==> t.headersWritten || call.index !in t.functionCalls || call.arguments != "")
            && (u.hasContent <==> t.hasContent || Meaningful(call))
            && u.functionIndexes == t.functionIndexes + (if call.index in t.functionCalls then [] else [call.index])
            && u.functionCalls.Keys == t.functionCalls.Keys + {call.index}
  {
    hide Meaningful, CallIdFor, FillCall, OpenCall;
    OpenEffect(if Meaningful(call) then t.(hasContent := true) else t, call);
  }

  lemma OpenEffect(t: Translator, call: ToolCall)
    ensures var u := OpenCall(t, call);
            && u.messageText == t.messageText && u.messageStarted == t.messageStarted && u.completed == t.completed
            && (u.headersWritten <==> t.headersWritten || call.index !in t.functionCalls) && u.hasContent == t.hasContent
            && u.functionIndexes == t.functionIndexes + (if call.index in t.functionCalls then [] else [call.index])
            && u.functionCalls.Keys == t.functionCalls.Keys + {call.index}
  {
    hide CallIdFor;
  }

  lemma CallHeld(t: Translator, call: ToolCall, k: int)
    ensures Held(ConsumeToolCall(t, call), k) == Held(t, k) + if k == call.index then call.arguments else ""
  {
    hide Meaningful, CallIdFor, OpenCall, Emit;
    var t0 := if Meaningful(call) then t.(hasContent := true) else t;
    OpenHeld(t0, call, k);
    EmitKeepsCallMap();
  }

  lemma OpenHeld(t: Translator, call: ToolCall, k: int)
    ensures Held(OpenCall(t, call), k) == Held(t, k) && call.index in OpenCall(t, call).functionCalls
  {}

  /** Emitting leaves the calls alone. */
  lemma EmitKeepsCallMap()
    ensures forall u: Translator, e: Event :: Emit(u, e).functionCalls == u.functionCalls
  {}

  // ---- the fields after any input --------------------------------------------------------------

  function After(atoms: seq<Atom>, n: nat): Translator
    requires n <= |atoms|
  {
    TakeAll(Fresh, atoms, n)
  }

  predicate AnyCall(atoms: seq<Atom>, n: nat)
    requires n <= |atoms|
  {
    n > 0 && (AnyCall(atoms, n - 1) || atoms[n - 1].Call?)
  }

  lemma TakeMessage(t: Translator, a: Atom)
    ensures var u := Take(t, a);
            && u.messageText == t.messageText + Part(a, SaidText) && u.completed == t.completed
            && u.messageStarted == (t.messageStarted || (a.Content? && a.text != ""))
  {
    match a {
      case Content(text) => ContentEffect(t, text);
      case Call(call) => CallEffect(t, call);
    }
    hide ConsumeContent, ConsumeToolCall;
  }

  lemma {:induction false} MessageHolds(atoms: seq<Atom>, n: nat)
    requires n <= |atoms|
    ensures After(atoms, n).messageStarted == AnyText(atoms, n)
    ensures After(atoms, n).messageText == Gathered(atoms, SaidText, n)
    ensures !After(atoms, n).completed
  {
    if n > 0 {
      MessageHolds(atoms, n - 1);
      TakeMessage(After(atoms, n - 1), atoms[n - 1]);
      hide Take;
    }
  }

  lemma TakeHeld(t: Translator, a: Atom, k: int)
    ensures k in Take(t, a).functionCalls <==> k in t.functionCalls || (a.Call? && a.call.index == k)
    ensures Held(Take(t, a), k) == Held(t, k) + Part(a, ArgsFor(k))
  {
    hide ConsumeContent, ConsumeToolCall;
    match a {
      case Content(text) => ContentEffect(t, text);
      case Call(call) =>
        CallEffect(t, call);
        CallHeld(t, call, k);
    }
  }

  lemma {:induction false} CallsHold(atoms: seq<Atom>, k: int, n: nat)
    requires n <= |atoms|
    ensures k in After(atoms, n).functionCalls <==> Mentions(atoms, k, n)
    ensures Held(After(atoms, n), k) == Gathered(atoms, ArgsFor(k), n)
  {
    hide Take, Part;
    if n > 0 {
      CallsHold(atoms, k, n - 1);
      TakeHeld(After(atoms, n - 1), atoms[n - 1], k);
    }
  }

  lemma TakeKeyed(t: Translator, a: Atom)
    requires Keyed(t)
    ensures Keyed(Take(t, a))
  {
    hide ConsumeContent, ConsumeToolCall;
    match a {
      case Content(text) => ContentEffect(t, text);
      case Call(call) => CallEffect(t, call);
    }
  }

  lemma {:induction false} KeyedHolds(atoms: seq<Atom>, n: nat)
    requires n <= |atoms|
    ensures Keyed(After(atoms, n))
  {
    hide Take, Keyed;
    if n == 0 {
      FreshKeyed();
    } else {
      KeyedHolds(atoms, n - 1);
      TakeKeyed(After(atoms, n - 1), atoms[n - 1]);
    }
  }

  lemma FreshKeyed()
    ensures Keyed(Fresh)
  {}

  predicate Headed(t: Translator) {
    (t.hasContent ==> t.headersWritten) && (t.functionCalls != map[] ==> t.headersWritten)
  }

  lemma TakeHeaded(t: Translator, a: Atom)
    requires Headed(t)
    ensures Headed(Take(t, a))
    ensures Take(t, a).headersWritten <==> t.headersWritten || a.Call? || (a.Content? && a.text != "")
  {
    hide ConsumeContent, ConsumeToolCall, Meaningful;
    match a {
      case Content(text) => ContentEffect(t, text);
      case Call(call) =>
        CallEffect(t, call);
        assert call.index in t.functionCalls ==> t.functionCalls != map[];
    }
  }

  lemma {:induction false} HeadersHold(atoms: seq<Atom>, n: nat)
    requires n <= |atoms|
    ensures Headed(After(atoms, n)) && After(atoms, n).headersWritten == (AnyText(atoms, n) || AnyCall(atoms, n))
  {
    hide Take;
    if n > 0 {
      HeadersHold(atoms, n - 1);
      TakeHeaded(After(atoms, n - 1), atoms[n - 1]);
    }
  }

  lemma {:induction false} LiveHolds(atoms: seq<Atom>, n: nat, normalize: string -> string)
    requires n <= |atoms|
    ensures if After(atoms, n).headersWritten then Live(After(atoms, n), normalize) else After(atoms, n) == Fresh
  {
    hide Live, Take, Silent;
    if n > 0 {
      LiveHolds(atoms, n - 1, normalize);
      HeadersHold(atoms, n - 1);
      HeadersHold(atoms, n);
      FreshIsSilent();
      TakeLive(After(atoms, n - 1), atoms[n - 1], normalize);
    }
  }

  lemma FreshIsSilent()
    ensures Silent(Fresh)
  {}

  lemma TakeLive(t: Translator, a: Atom, normalize: string -> string)
    requires Silent(t) || Live(t, normalize)
    ensures if a == Content("") then Take(t, a) == t else Live(Take(t, a), normalize)
  {
    hide Live, Silent, ConsumeContent, ConsumeToolCall;
    match a {
      case Content(text) => ContentLive(t, text, normalize);
      case Call(call) => CallLive(t, call, normalize);
    }
  }

  // ---- finishing -------------------------------------------------------------------------------

  /** The message has been closed, the calls in `closed` too, and the others are open. */
  ghost predicate Closing(t: Translator, m: Monitor, closed: set<int>) {
    && m.phase.Streaming? && m.text == t.messageText
    && m.message == (if t.messageStarted then MessageClosed else NoMessage)
    && m.calls.Keys == t.functionCalls.Keys
    && forall k :: k in t.functionCalls ==>
         m.calls[k] == CallView(t.functionCalls[k].outputIndex, t.functionCalls[k].arguments,
                                if k in closed then CallClosed else Open)
  }

  ghost predicate ClosingAt(t: Translator, closed: set<int>, normalize: string -> string) {
    t.headersWritten && Watch(t.out, normalize).Some? && Closing(t, Watch(t.out, normalize).value, closed)
  }

  lemma CloseMessageCloses(t: Translator, normalize: string -> string)
    requires Live(t, normalize)
    ensures ClosingAt(CloseMessage(t), {}, normalize)
  {
    if t.messageStarted {
      var t1 := Emit(t, TextDone(MESSAGE_INDEX, t.messageText));
      var t2 := Emit(t1, PartDone(MESSAGE_INDEX, t.messageText));
      EmitWatch(t, TextDone(MESSAGE_INDEX, t.messageText), normalize);
      EmitWatch(t1, PartDone(MESSAGE_INDEX, t.messageText), normalize);
      EmitWatch(t2, ItemDone(Message, MESSAGE_INDEX, NoTitle, t.messageText), normalize);
    }
    hide Watch;
  }

  lemma CloseCallCloses(t: Translator, k: int, closed: set<int>, normalize: string -> string)
    requires ClosingAt(t, closed, normalize) && k in t.functionCalls && k !in closed
    ensures ClosingAt(CloseCall(t, k, normalize), closed + {k}, normalize)
  {
    var call := t.functionCalls[k];
    var title := Titled(call.callId, call.name);
    var said := ArgsDone(k, call.outputIndex, title, normalize(call.arguments));
    EmitWatch(t, said, normalize);
    EmitWatch(Emit(t, said), ItemDone(Function(k), call.outputIndex, title, normalize(call.arguments)), normalize);
    hide Watch;
  }

  function FirstOf(keys: seq<int>, n: nat): set<int>
    requires n <= |keys|
  {
    if n == 0 then {} else FirstOf(keys, n - 1) + {keys[n - 1]}
  }

  lemma {:induction false} FirstOfIn(keys: seq<int>, n: nat, k: int)
    requires n <= |keys|
    ensures k in FirstOf(keys, n) <==> exists i :: 0 <= i < n && keys[i] == k
  {
    if n > 0 {
      FirstOfIn(keys, n - 1, k);
    }
  }

  lemma {:induction false} CloseCallsCloses(t: Translator, keys: seq<int>, n: nat, normalize: string -> string)
    requires ClosingAt(t, {}, normalize) && n <= |keys| && Distinct(keys)
    requires forall k :: k in keys ==> k in t.functionCalls
    ensures ClosingAt(CloseCalls(t, keys, n, normalize), FirstOf(keys, n), normalize)
    ensures CloseCalls(t, keys, n, normalize).functionCalls == t.functionCalls
  {
    hide ClosingAt, CloseCall;
    if n > 0 {
      CloseCallsCloses(t, keys, n - 1, normalize);
      CloseCallsFrame(t, keys, n, normalize);
      FirstOfIn(keys, n - 1, keys[n - 1]);
      assert keys[n - 1] in keys;
      CloseCallCloses(CloseCalls(t, keys, n - 1, normalize), keys[n - 1], FirstOf(keys, n - 1), normalize);
    }
  }

  /** A whole, finished stream: accepted to the last event, which is the done marker after the
      completed response. */
  ghost predicate Whole(log: seq<Event>, text: string, output: seq<OutputItem>, normalize: string -> string) {
    && |log| > 2 && log[0] == Created && log[|log| - 2] == Completed(output, TrimSpace(text)) && log[|log| - 1] == DoneMarker
    && Watch(log, normalize).Some? && Watch(log, normalize).value.phase.Over?
    && Watch(log, normalize).value.text == text
  }

  lemma SealWatch(t: Translator, output: seq<OutputItem>, keys: set<int>, normalize: string -> string)
    requires ClosingAt(t, keys, normalize) && t.functionCalls.Keys == keys
    ensures var t1 := Emit(t, Completed(output, TrimSpace(t.messageText)));
            && Watch(t1.out + [DoneMarker], normalize).Some?
            && Watch(t1.out + [DoneMarker], normalize).value == Watch(t.out, normalize).value.(phase := Over)
            && t1.out == t.out + [Completed(output, TrimSpace(t.messageText))]
  {
    hide Watch, TrimSpace;
    EmitWatch(t, Completed(output, TrimSpace(t.messageText)), normalize);
    WatchMore(Emit(t, Completed(output, TrimSpace(t.messageText))).out, DoneMarker, normalize);
  }

  lemma {:induction false} AcceptedStartsCreated(log: seq<Event>, normalize: string -> string)
    requires log != [] && Watch(log, normalize).Some?
    ensures log[0] == Created
  {
    var before := log[..|log| - 1];
    if before != [] {
      AcceptedStartsCreated(before, normalize);
    }
    hide AdvanceMessage, AdvanceCall;
  }

  // ---- from atoms back to chunks ---------------------------------------------------------------

  lemma {:induction false} GatheredPrefix(a: seq<Atom>, b: seq<Atom>, w: Wanted, n: nat)
    requires n <= |a|
    ensures Gathered(a + b, w, n) == Gathered(a, w, n)
  {
    if n > 0 {
      GatheredPrefix(a, b, w, n - 1);
    }
  }

  lemma {:induction false} GatheredConcat(a: seq<Atom>, b: seq<Atom>, w: Wanted, n: nat)
    requires n <= |b|
    ensures Gathered(a + b, w, |a| + n) == Gathered(a, w, |a|) + Gathered(b, w, n)
  {
    hide Part;
    if n > 0 {
      GatheredConcat(a, b, w, n - 1);
      assert (a + b)[|a| + n - 1] == b[n - 1];
    } else {
      GatheredPrefix(a, b, w, |a|);
    }
  }

  function CallsPart(calls: seq<ToolCall>, w: Wanted, n: nat): string
    requires n <= |calls|
  {
    if w.SaidText? then "" else CallsArgs(calls, w.tool, n)
  }

  lemma {:induction false} CallAtomsGather(calls: seq<ToolCall>, w: Wanted, n: nat)
    requires n <= |calls|
    ensures |CallAtoms(calls, n)| == n && Gathered(CallAtoms(calls, n), w, n) == CallsPart(calls, w, n)
  {
    if n > 0 {
      CallAtomsGather(calls, w, n - 1);
      GatheredPrefix(CallAtoms(calls, n - 1), [Call(calls[n - 1])], w, n - 1);
    }
  }

  function All(atoms: seq<Atom>, w: Wanted): string {
    Gathered(atoms, w, |atoms|)
  }

  lemma AllOfNothing(w: Wanted)
    ensures All([], w) == ""
  {}

  lemma AllConcat(a: seq<Atom>, b: seq<Atom>, w: Wanted)
    ensures All(a + b, w) == All(a, w) + All(b, w)
  {
    GatheredConcat(a, b, w, |b|);
    hide Gathered;
  }

  function ChoicePart(choice: Choice, w: Wanted): string {
    if w.SaidText? then choice.content else CallsArgs(choice.toolCalls, w.tool, |choice.toolCalls|)
  }

  lemma ChoiceGathers(choice: Choice, w: Wanted)
    ensures All(ChoiceAtoms(choice), w) == ChoicePart(choice, w)
  {
    hide CallAtoms, CallsArgs, Gathered;
    var calls := CallAtoms(choice.toolCalls, |choice.toolCalls|);
    CallAtomsGather(choice.toolCalls, w, |choice.toolCalls|);
    if choice.content == "" {
      assert ChoiceAtoms(choice) == calls;
    } else {
      AllConcat([Content(choice.content)], calls, w);
      AllOfOne(Content(choice.content), w);
    }
  }

  lemma AllOfOne(a: Atom, w: Wanted)
    ensures All([a], w) == Part(a, w)
  {
    assert Gathered([a], w, 1) == Gathered([a], w, 0) + Part(a, w);
  }

  lemma {:induction false} ChoicesGather(choices: seq<Choice>, w: Wanted, n: nat)
    requires n <= |choices|
    ensures All(ChoicesAtoms(choices, n), w) == if w.SaidText? then ChoicesText(choices, n) else ChoicesArgs(choices, w.tool, n)
  {
    hide ChoiceAtoms, All, CallsArgs;
    if n == 0 {
      AllOfNothing(w);
    } else {
      ChoicesGather(choices, w, n - 1);
      ChoiceGathers(choices[n - 1], w);
      AllConcat(ChoicesAtoms(choices, n - 1), ChoiceAtoms(choices[n - 1]), w);
    }
  }

  lemma {:induction false} ChunksGather(chunks: seq<Chunk>, w: Wanted, n: nat)
    requires n <= |chunks|
    ensures All(Atoms(chunks, n), w) == if w.SaidText? then TextOf(chunks, n) else ArgsOf(chunks, w.tool, n)
  {
    hide ChoicesAtoms, All, ChoicesText, ChoicesArgs;
    if n == 0 {
      AllOfNothing(w);
    } else {
      var more := ChoicesAtoms(chunks[n - 1].choices, |chunks[n - 1].choices|);
      ChunksGather(chunks, w, n - 1);
      ChoicesGather(chunks[n - 1].choices, w, |chunks[n - 1].choices|);
      AllConcat(Atoms(chunks, n - 1), more, w);
    }
  }

  lemma {:induction false} AnyTextIsText(atoms: seq<Atom>, n: nat)
    requires n <= |atoms|
    ensures AnyText(atoms, n) <==> Gathered(atoms, SaidText, n) != ""
  {
    if n > 0 {
      AnyTextIsText(atoms, n - 1);
    }
  }

  // ---- the whole stream ------------------------------------------------------------------------

  predicate UsesTool(chunks: seq<Chunk>, k: int) {
    Mentions(Atoms(chunks, |chunks|), k, |Atoms(chunks, |chunks|)|)
  }

  predicate UsesTools(chunks: seq<Chunk>) {
    AnyCall(Atoms(chunks, |chunks|), |Atoms(chunks, |chunks|)|)
  }

  /** The log of a client who saw every chunk and the end. */
  function Received(chunks: seq<Chunk>, normalize: string -> string): seq<Event> {
    Finished(Feed(chunks, |chunks|), normalize).out
  }

  /** The translator's fields after all the chunks. */
  lemma FeedFields(chunks: seq<Chunk>, normalize: string -> string)
    ensures var t := Feed(chunks, |chunks|);
            && t.messageStarted == (TextOf(chunks, |chunks|) != "") && t.messageText == TextOf(chunks, |chunks|)
            && !t.completed && (t.hasContent ==> t.headersWritten) && Keyed(t)
            && t.headersWritten == (TextOf(chunks, |chunks|) != "" || UsesTools(chunks))
            && if t.headersWritten then Live(t, normalize) else t == Fresh
  {
    var atoms := Atoms(chunks, |chunks|);
    FeedIsAtoms(chunks, |chunks|);
    MessageHolds(atoms, |atoms|);
    KeyedHolds(atoms, |atoms|);
    HeadersHold(atoms, |atoms|);
    LiveHolds(atoms, |atoms|, normalize);
    AnyTextIsText(atoms, |atoms|);
    ChunksGather(chunks, SaidText, |chunks|);
    hide Feed, Live, Keyed, Atoms, TakeAll, TextOf, Gathered;
  }

  lemma FeedCalls(chunks: seq<Chunk>, k: int)
    ensures k in Feed(chunks, |chunks|).functionCalls <==> UsesTool(chunks, k)
    ensures Held(Feed(chunks, |chunks|), k) == ArgsOf(chunks, k, |chunks|)
  {
    var atoms := Atoms(chunks, |chunks|);
    FeedIsAtoms(chunks, |chunks|);
    CallsHold(atoms, k, |atoms|);
    ChunksGather(chunks, ArgsFor(k), |chunks|);
    hide Feed, Atoms, TakeAll, ArgsOf, Gathered;
  }

  /** The translator with every item closed, just before the response is completed. */
  function Closed(t: Translator, normalize: string -> string): Translator {
    CloseCalls(CloseMessage(t), SortedIndexes(t), |SortedIndexes(t)|, normalize)
  }

  lemma CloseMessageFrame(t: Translator)
    ensures SameButOut(t, CloseMessage(t))
  {}

  lemma SortedKeys(t: Translator)
    requires Keyed(t)
    ensures var keys := SortedIndexes(t); Distinct(keys) && FirstOf(keys, |keys|) == t.functionCalls.Keys
    ensures forall k :: k in SortedIndexes(t) ==> k in t.functionCalls
  {
    var keys := SortedIndexes(t);
    SortDistinct(t.functionIndexes);
    hide SortInts, FirstOf;
    forall k ensures k in FirstOf(keys, |keys|) <==> k in t.functionCalls {
      FirstOfIn(keys, |keys|, k);
    }
  }

  lemma AllClosed(t: Translator, normalize: string -> string)
    requires Live(t, normalize) && Keyed(t)
    ensures ClosingAt(Closed(t, normalize), t.functionCalls.Keys, normalize)
    ensures SameButOut(t, Closed(t, normalize))
  {
    var keys := SortedIndexes(t);
    SortedKeys(t);
    CloseMessageCloses(t, normalize);
    CloseMessageFrame(t);
    CloseCallsFrame(CloseMessage(t), keys, |keys|, normalize);
    hide Live, Keyed, ClosingAt, CloseMessage, CloseCalls, SortInts, FirstOf;
    CloseCallsCloses(CloseMessage(t), keys, |keys|, normalize);
  }

  lemma FinishSeals(t: Translator, normalize: string -> string)
    requires Live(t, normalize) && Keyed(t) && !t.completed
    ensures var log := Finished(t, normalize).out;
            && Whole(log, t.messageText, OutputItems(t, normalize), normalize)
            && Watch(log, normalize).value.calls.Keys == t.functionCalls.Keys
            && forall k :: k in t.functionCalls ==>
                 var call := t.functionCalls[k];
                 Watch(log, normalize).value.calls[k] == CallView(call.outputIndex, call.arguments, CallClosed)
  {
    AllClosed(t, normalize);
    SealWatch(Closed(t, normalize), OutputItems(t, normalize), t.functionCalls.Keys, normalize);
    hide Keyed, CloseMessage, CloseCalls, SortInts, OutputItems, TrimSpace;
    assert t.headersWritten;
    AcceptedStartsCreated(Finished(t, normalize).out, normalize);
    hide Live, Watch, Emit;
  }

  /** Chunks followed by Finish: nothing at all is written when the chunks brought neither text nor a
      tool call. Otherwise the reader accepts the whole log from response.created to the done marker,
      the text it has read is all the text, and it has seen exactly the tools used, each closed with
      all its argument fragments. */
  lemma StreamIsWhole(chunks: seq<Chunk>, normalize: string -> string)
    ensures TextOf(chunks, |chunks|) == "" && !UsesTools(chunks) ==> Received(chunks, normalize) == []
    ensures TextOf(chunks, |chunks|) != "" || UsesTools(chunks) ==>
              var output := OutputItems(Feed(chunks, |chunks|), normalize);
              && Whole(Received(chunks, normalize), TextOf(chunks, |chunks|), output, normalize)
              && var calls := Watch(Received(chunks, normalize), normalize).value.calls;
              forall k ::
                && (k in calls <==> UsesTool(chunks, k))
                && (k in calls ==> calls[k].status.CallClosed? && calls[k].arguments == ArgsOf(chunks, k, |chunks|))
  {
    hide Feed, UsesTool, UsesTools, Finished, Watch, OutputItems, Whole, Live, Keyed, TextOf, ArgsOf;
    var t := Feed(chunks, |chunks|);
    FeedFields(chunks, normalize);
    if t.headersWritten {
      FinishSeals(t, normalize);
      forall k {
        FeedCalls(chunks, k);
      }
    } else {
      FreshEndsEmpty(normalize);
    }
  }

  lemma FreshEndsEmpty(normalize: string -> string)
    ensures Finished(Fresh, normalize).out == []
  {}

  lemma {:induction false} ItemsAt(t: Translator, keys: seq<int>, n: nat, normalize: string -> string)
    requires n <= |keys| && forall j :: 0 <= j < n ==> keys[j] in t.functionCalls
    ensures |FunctionItems(t, keys, n, normalize)| == n
    ensures forall j :: 0 <= j < n ==>
              var item := FunctionItems(t, keys, n, normalize)[j];
              && item.FunctionItem? && item.tool == keys[j]
              && item.arguments == normalize(t.functionCalls[keys[j]].arguments)
  {
    if n > 0 {
      ItemsAt(t, keys, n - 1, normalize);
    }
  }

  /** From `skip` on, one item for each tool of the translator, in ascending order. */
  ghost predicate ListsCalls(items: seq<OutputItem>, skip: nat, t: Translator, normalize: string -> string) {
    && |items| == skip + |t.functionIndexes|
    && (forall j :: skip <= j < |items| ==>
          && items[j].FunctionItem? && items[j].tool in t.functionCalls
          && items[j].arguments == normalize(t.functionCalls[items[j].tool].arguments))
    && (forall i, j :: skip <= i < j < |items| ==> items[i].tool < items[j].tool)
    && forall k :: k in t.functionCalls ==> ListsTool(items, skip, k)
  }

  predicate ListsTool(items: seq<OutputItem>, skip: nat, k: int) {
    exists j :: skip <= j < |items| && items[j].FunctionItem? && items[j].tool == k
  }

  lemma FunctionsListed(t: Translator, normalize: string -> string)
    requires Keyed(t)
    ensures ListsCalls(FunctionItems(t, SortedIndexes(t), |SortedIndexes(t)|, normalize), 0, t, normalize)
  {
    hide SortInts, FunctionItems;
    var keys := SortedIndexes(t);
    SortDistinct(t.functionIndexes);
    assert forall j :: 0 <= j < |keys| ==> keys[j] in keys;
    ItemsAt(t, keys, |keys|, normalize);
    var items := FunctionItems(t, keys, |keys|, normalize);
    forall k | k in t.functionCalls ensures ListsTool(items, 0, k) {
      assert k in keys;
      var j :| 0 <= j < |keys| && keys[j] == k;
      assert items[j].tool == k;
    }
  }

  lemma ListsAfterMessage(first: OutputItem, items: seq<OutputItem>, t: Translator, normalize: string -> string)
    requires ListsCalls(items, 0, t, normalize)
    ensures ListsCalls([first] + items, 1, t, normalize)
  {
    forall k | k in t.functionCalls ensures ListsTool([first] + items, 1, k) {
      assert ListsTool(items, 0, k);
      var j :| 0 <= j < |items| && items[j].FunctionItem? && items[j].tool == k;
      assert ([first] + items)[1 + j].tool == k;
    }
  }

  /** The final response lists the message first, if there was any text, and then every tool used,
      once and in ascending order, with its normalized arguments. */
  lemma OutputIsListed(chunks: seq<Chunk>, normalize: string -> string)
    ensures var items := OutputItems(Feed(chunks, |chunks|), normalize);
            var skip := if TextOf(chunks, |chunks|) != "" then 1 else 0;
            && |items| >= skip
            && (skip == 1 ==> items[0] == MessageItem(TrimSpace(TextOf(chunks, |chunks|))))
            && (forall j :: skip <= j < |items| ==>
                  && items[j].FunctionItem? && UsesTool(chunks, items[j].tool)
                  && items[j].arguments == normalize(ArgsOf(chunks, items[j].tool, |chunks|)))
            && (forall i, j :: skip <= i < j < |items| ==> items[i].tool < items[j].tool)
            && forall k :: UsesTool(chunks, k) ==> ListsTool(items, skip, k)
  {
    hide Feed, UsesTool, SortInts, FunctionItems, TrimSpace, TextOf, ArgsOf, Live, Keyed, ListsTool, OutputItems;
    FeedFields(chunks, normalize);
    OutputLists(Feed(chunks, |chunks|), normalize);
    forall k { FeedCalls(chunks, k); }
  }

  lemma OutputLists(t: Translator, normalize: string -> string)
    requires Keyed(t)
    ensures var items := OutputItems(t, normalize);
            && ListsCalls(items, if t.messageStarted then 1 else 0, t, normalize)
            && (t.messageStarted ==> items[0] == MessageItem(TrimSpace(t.messageText)))
  {
    hide SortInts, FunctionItems, TrimSpace, Keyed, ListsCalls;
    FunctionsListed(t, normalize);
    var calls := FunctionItems(t, SortedIndexes(t), |SortedIndexes(t)|, normalize);
    if t.messageStarted {
      ListsAfterMessage(MessageItem(TrimSpace(t.messageText)), calls, t, normalize);
    } else {
      assert calls == [] + calls;
    }
  }

  // ---- output indices --------------------------------------------------------------------------

  /** The output indices announced by the first n events, in order. */
  function Announced(log: seq<Event>, n: nat): seq<nat>
    requires n <= |log|
  {
    if n == 0 then []
    else Announced(log, n - 1) + if log[n - 1].ItemAdded? then [log[n - 1].outputIndex] else []
  }

  function Indices(log: seq<Event>): seq<nat> {
    Announced(log, |log|)
  }

  lemma {:induction false} AnnouncedPrefix(log: seq<Event>, more: seq<Event>, n: nat)
    requires n <= |log|
    ensures Announced(log + more, n) == Announced(log, n)
  {
    if n > 0 {
      AnnouncedPrefix(log, more, n - 1);
    }
  }

  lemma IndicesMore(log: seq<Event>, e: Event)
    ensures Indices(log + [e]) == Indices(log) + if e.ItemAdded? then [e.outputIndex] else []
  {
    AnnouncedPrefix(log, [e], |log|);
  }

  lemma EmitIndices(t: Translator, e: Event)
    ensures Indices(Emit(t, e).out) == Indices(t.out) + if e.ItemAdded? then [e.outputIndex] else []
  {
    if t.headersWritten {
      IndicesMore(t.out, e);
    } else {
      IndicesMore(t.out, Created);
      IndicesMore(t.out + [Created], e);
      assert t.out + [Created] + [e] == t.out + [Created, e];
    }
    hide Indices;
  }

  /** `early` tool calls were announced before the message; from then on every index is right. */
  ghost predicate Numbered(t: Translator, early: nat) {
    var seen := Indices(t.out);
    && |seen| == |t.functionIndexes| + (if t.messageStarted then 1 else 0)
    && early <= |t.functionIndexes| && (!t.messageStarted ==> early == |t.functionIndexes|)
    && forall i :: 0 <= i < |seen| ==> seen[i] == if t.messageStarted && i == early then 0 else i
  }

  lemma ContentNumbers(t: Translator, text: string, early: nat)
    requires Numbered(t, early)
    ensures Numbered(ConsumeContent(t, text), early)
  {
    hide Indices;
    if text != "" {
      var t0 := t.(hasContent := true);
      var t1 := EnsureMessage(t0);
      if !t.messageStarted {
        var s := t0.(messageStarted := true);
        EmitIndices(s, ItemAdded(Message, MESSAGE_INDEX, NoTitle));
        EmitIndices(Emit(s, ItemAdded(Message, MESSAGE_INDEX, NoTitle)), PartAdded(MESSAGE_INDEX));
      }
      EmitIndices(t1.(messageText := t1.messageText + text), TextDelta(MESSAGE_INDEX, text));
    }
  }

  lemma OpenNumbers(t: Translator, call: ToolCall, early: nat)
    requires Numbered(t, early)
    ensures Numbered(OpenCall(t, call), if t.messageStarted || call.index in t.functionCalls then early else early + 1)
  {
    hide Indices, CallIdFor;
    if call.index !in t.functionCalls {
      var u := OpenCall(t, call);
      var item := u.functionCalls[call.index];
      var t1 := t.(functionCalls := u.functionCalls, functionIndexes := u.functionIndexes);
      EmitIndices(t1, ItemAdded(Function(call.index), item.outputIndex, Titled(item.callId, item.name)));
    }
  }

  lemma FillNumbers(t: Translator, call: ToolCall, early: nat)
    requires Numbered(t, early) && call.index in t.functionCalls
    ensures var item := FillCall(t.functionCalls[call.index], call);
            var t2 := t.(functionCalls := t.functionCalls[call.index := item]);
            Numbered(if call.arguments != "" then Emit(t2, ArgsDelta(call.index, item.outputIndex, item.callId, call.arguments)) else t2, early)
  {
    var item := FillCall(t.functionCalls[call.index], call);
    var t2 := t.(functionCalls := t.functionCalls[call.index := item]);
    EmitIndices(t2, ArgsDelta(call.index, item.outputIndex, item.callId, call.arguments));
    hide Indices, FillCall;
  }

  lemma CallNumbers(t: Translator, call: ToolCall, early: nat)
    requires Numbered(t, early)
    ensures Numbered(ConsumeToolCall(t, call), if t.messageStarted || call.index in t.functionCalls then early else early + 1)
  {
    var t0 := if Meaningful(call) then t.(hasContent := true) else t;
    assert Numbered(t0, early) by { hide Meaningful, Indices; }
    OpenNumbers(t0, call, early);
    FillNumbers(OpenCall(t0, call), call, if t.messageStarted || call.index in t.functionCalls then early else early + 1);
    hide Numbered, OpenCall, Meaningful, FillCall, Emit;
  }

  lemma {:induction false} NumbersHold(atoms: seq<Atom>, n: nat) returns (early: nat)
    requires n <= |atoms|
    ensures Numbered(After(atoms, n), early) && (early > 0 <==> CallFirst(atoms, n))
  {
    hide Take, Indices;
    if n == 0 {
      early := 0;
      EmptyIndices();
    } else {
      early := NumbersHold(atoms, n - 1);
      var t := After(atoms, n - 1);
      MessageHolds(atoms, n - 1);
      KeyedHolds(atoms, n - 1);
      early := TakeNumbers(t, atoms[n - 1], early);
    }
  }

  lemma EmptyIndices()
    ensures Indices([]) == []
  {}

  lemma TakeNumbers(t: Translator, a: Atom, early: nat) returns (later: nat)
    requires Numbered(t, early) && Keyed(t)
    ensures Numbered(Take(t, a), later)
    ensures later > 0 <==> early > 0 || (a.Call? && !t.messageStarted)
  {
    hide Indices, ConsumeContent, ConsumeToolCall;
    match a {
      case Content(text) =>
        ContentNumbers(t, text, early);
        later := early;
      case Call(call) =>
        CallNumbers(t, call, early);
        assert call.index in t.functionCalls ==> call.index in t.functionIndexes;
        later := if t.messageStarted || call.index in t.functionCalls then early else early + 1;
    }
  }

  lemma CloseMessageIndices(t: Translator)
    ensures Indices(CloseMessage(t).out) == Indices(t.out)
  {
    var t1 := Emit(t, TextDone(MESSAGE_INDEX, t.messageText));
    var t2 := Emit(t1, PartDone(MESSAGE_INDEX, t.messageText));
    EmitIndices(t, TextDone(MESSAGE_INDEX, t.messageText));
    EmitIndices(t1, PartDone(MESSAGE_INDEX, t.messageText));
    EmitIndices(t2, ItemDone(Message, MESSAGE_INDEX, NoTitle, t.messageText));
    hide Indices, Emit;
  }

  lemma CloseCallIndices(t: Translator, k: int, normalize: string -> string)
    ensures Indices(CloseCall(t, k, normalize).out) == Indices(t.out)
  {
    if k in t.functionCalls {
      var call := t.functionCalls[k];
        var title := Titled(call.callId, call.name);
      var said := ArgsDone(k, call.outputIndex, title, normalize(call.arguments));
      EmitIndices(t, said);
      EmitIndices(Emit(t, said), ItemDone(Function(k), call.outputIndex, title, normalize(call.arguments)));
      hide Indices, Emit;
    }
  }

  lemma {:induction false} CloseCallsIndices(t: Translator, keys: seq<int>, n: nat, normalize: string -> string)
    requires n <= |keys|
    ensures Indices(CloseCalls(t, keys, n, normalize).out) == Indices(t.out)
  {
    if n > 0 {
      CloseCallsIndices(t, keys, n - 1, normalize);
      CloseCallIndices(CloseCalls(t, keys, n - 1, normalize), keys[n - 1], normalize);
      hide Indices, CloseCall;
    }
  }

  lemma FinishIndices(t: Translator, normalize: string -> string)
    ensures Indices(Finished(t, normalize).out) == Indices(t.out)
  {
    var keys := SortedIndexes(t);
    var t2 := CloseCalls(CloseMessage(t), keys, |keys|, normalize);
    var last := Completed(OutputItems(t, normalize), TrimSpace(t.messageText));
    CloseMessageIndices(t);
    CloseCallsIndices(CloseMessage(t), keys, |keys|, normalize);
    EmitIndices(t2, last);
    IndicesMore(Emit(t2, last).out, DoneMarker);
    hide Indices, Emit, CloseCalls, CloseMessage, SortInts, OutputItems, TrimSpace;
  }

  predicate ToolBeforeText(chunks: seq<Chunk>) {
    CallFirst(Atoms(chunks, |chunks|), |Atoms(chunks, |chunks|)|)
  }

  predicate Dense(indices: seq<nat>) {
    forall i :: 0 <= i < |indices| ==> indices[i] == i
  }

  predicate NoRepeats(indices: seq<nat>) {
    forall i, j :: 0 <= i < j < |indices| ==> indices[i] != indices[j]
  }

  lemma NumberedDense(t: Translator, early: nat)
    requires Numbered(t, early)
    ensures Dense(Indices(t.out)) <==> !(t.messageStarted && early > 0)
    ensures NoRepeats(Indices(t.out)) <==> !(t.messageStarted && early > 0)
  {
    hide Indices;
    var seen := Indices(t.out);
    if t.messageStarted && early > 0 {
      assert seen[0] == 0 && seen[early] == 0;
    }
  }

  /** The announced output indices are 0, 1, 2, ... in order, and are distinct, exactly when the
      stream does not bring a tool call first and text later. In that case the message takes
      index 0, which the first call already has. */
  lemma IndicesAreDense(chunks: seq<Chunk>, normalize: string -> string)
    ensures var seen := Indices(Received(chunks, normalize));
            var clash := TextOf(chunks, |chunks|) != "" && ToolBeforeText(chunks);
            && (Dense(seen) <==> !clash) && (NoRepeats(seen) <==> !clash)
  {
    var atoms := Atoms(chunks, |chunks|);
    var t := Feed(chunks, |chunks|);
    FeedFields(chunks, normalize);
    FeedIsAtoms(chunks, |chunks|);
    var early := NumbersHold(atoms, |atoms|);
    NumberedDense(t, early);
    FinishIndices(t, normalize);
    hide Feed, Finished, Indices, Atoms, TextOf, Live, Keyed, Dense, NoRepeats, Numbered;
  }
}

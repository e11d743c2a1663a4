/** The whole Claude stream written down from the history of calls, without any translator state, and
    that the translator writes exactly that. */
module ClaudeLog {
  import opened Optional
  import opened Text
  import opened Chunks
  import opened ClaudeStream
  import T = ClaudeTheorems

  // ---- the calls, taken apart ------------------------------------------------------------------

  /** What the calls bring, in order. A Gate is a tool_calls list with some non-blank field; its calls
      follow it. Lists without one leave no trace. */
  datatype Atom =
    | Header(chunk: Chunk)
    | Said(text: string)
    | Gate
    | Called(call: ToolCall)
    | Reason(reason: string)
    | End

  function CallAtoms(calls: seq<ToolCall>, n: nat): seq<Atom>
    requires n <= |calls|
  {
    if n == 0 then [] else CallAtoms(calls, n - 1) + [Called(calls[n - 1])]
  }

  function TextAtoms(content: string): seq<Atom> {
    if content == "" then [] else [Said(content)]
  }

  /** Some field of some call is not blank. */
  predicate AnyField(calls: seq<ToolCall>) {
    exists i :: 0 <= i < |calls| &&
      (!IsBlank(calls[i].id) || !IsBlank(calls[i].kind) || !IsBlank(calls[i].name) || !IsBlank(calls[i].arguments))
  }

  function ListAtoms(calls: seq<ToolCall>): seq<Atom> {
    if AnyField(calls) then [Gate] + CallAtoms(calls, |calls|) else []
  }

  function ReasonAtoms(reason: string): seq<Atom> {
    if reason == "" then [] else [Reason(reason)]
  }

  function ChoiceAtoms(choice: Choice): seq<Atom> {
    TextAtoms(choice.content) + (ListAtoms(choice.toolCalls) + ReasonAtoms(choice.finishReason))
  }

  function ChoicesAtoms(choices: seq<Choice>, n: nat): seq<Atom>
    requires n <= |choices|
  {
    if n == 0 then [] else ChoicesAtoms(choices, n - 1) + ChoiceAtoms(choices[n - 1])
  }

  function OpAtoms(op: T.Op): seq<Atom> {
    match op
    case Consume(chunk) => [Header(chunk)] + ChoicesAtoms(chunk.choices, |chunk.choices|)
    case Finish => [End]
  }

  /** The history of the first n calls. */
  function Atoms(ops: seq<T.Op>, n: nat): seq<Atom>
    requires n <= |ops|
  {
    if n == 0 then [] else Atoms(ops, n - 1) + OpAtoms(ops[n - 1])
  }

  // ---- reading a history -----------------------------------------------------------------------

  /** Some text or tool call has come. */
  predicate Live(h: seq<Atom>, n: nat)
    requires n <= |h|
  {
    n > 0 && (Live(h, n - 1) || h[n - 1].Said? || h[n - 1].Gate?)
  }

  predicate Ended(h: seq<Atom>, n: nat)
    requires n <= |h|
  {
    n > 0 && (Ended(h, n - 1) || h[n - 1].End?)
  }

  /** Text came last: since then neither a tool call nor the first End. */
  predicate Talking(h: seq<Atom>, n: nat)
    requires n <= |h|
  {
    && n > 0
    && match h[n - 1]
       case Said(_) => true
       case Gate => false
       case End => Ended(h, n - 1) && Talking(h, n - 1)
       case _ => Talking(h, n - 1)
  }

  predicate Mentioned(h: seq<Atom>, k: int, n: nat)
    requires n <= |h|
  {
    n > 0 && (Mentioned(h, k, n - 1) || (h[n - 1].Called? && h[n - 1].call.index == k))
  }

  /** How many blocks there are: one for each stretch of text, one for each tool. */
  function Blocks(h: seq<Atom>, n: nat): nat
    requires n <= |h|
  {
    if n == 0 then 0
    else
      Blocks(h, n - 1)
      + if (h[n - 1].Said? && !Talking(h, n - 1)) || (h[n - 1].Called? && !Mentioned(h, h[n - 1].call.index, n - 1)) then 1 else 0
  }

  /** The block of the latest stretch of text. */
  function TextBlock(h: seq<Atom>, n: nat): nat
    requires n <= |h|
  {
    if n == 0 then 0
    else if h[n - 1].Said? && !Talking(h, n - 1) then Blocks(h, n - 1)
    else TextBlock(h, n - 1)
  }

  /** The block of a tool: the number of blocks before its first call. */
  function ToolBlockOf(h: seq<Atom>, k: int, n: nat): nat
    requires n <= |h|
  {
    if n == 0 then 0
    else if !Mentioned(h, k, n - 1) && h[n - 1].Called? && h[n - 1].call.index == k then Blocks(h, n - 1)
    else ToolBlockOf(h, k, n - 1)
  }

  /** The tools, by first call. */
  function Tools(h: seq<Atom>, n: nat): seq<int>
    requires n <= |h|
  {
    if n == 0 then []
    else
      Tools(h, n - 1)
      + if h[n - 1].Called? && !Mentioned(h, h[n - 1].call.index, n - 1) then [h[n - 1].call.index] else []
  }

  /** The first id that is not blank. */
  function MessageId(h: seq<Atom>, n: nat): string
    requires n <= |h|
  {
    if n == 0 then ""
    else
      var before := MessageId(h, n - 1);
      if before == "" && h[n - 1].Header? && !IsBlank(h[n - 1].chunk.id) then h[n - 1].chunk.id else before
  }

  /** The model asked for, unless it is blank and a chunk brings one. */
  function Model(requested: string, h: seq<Atom>, n: nat): string
    requires n <= |h|
  {
    if n == 0 then requested
    else
      var before := Model(requested, h, n - 1);
      if !IsBlank(before) || !h[n - 1].Header? || h[n - 1].chunk.model == "" then before
      else if IsBlank(h[n - 1].chunk.model) then "" else h[n - 1].chunk.model
  }

  function LastReason(h: seq<Atom>, n: nat): string
    requires n <= |h|
  {
    if n == 0 then "" else if h[n - 1].Reason? then h[n - 1].reason else LastReason(h, n - 1)
  }

  function LastUsage(h: seq<Atom>, n: nat): Option<string>
    requires n <= |h|
  {
    if n == 0 then None
    else if h[n - 1].Header? && h[n - 1].chunk.usage.Some? then h[n - 1].chunk.usage
    else LastUsage(h, n - 1)
  }

  // ---- the stream, from the history ------------------------------------------------------------

  function Opening(requested: string, h: seq<Atom>, i: nat): seq<Event>
    requires i < |h|
  {
    if Live(h, i) then [] else [MessageStart(MessageId(h, i), Model(requested, h, i))]
  }

  function Stops(h: seq<Atom>, i: nat, n: nat): seq<Event>
    requires i < |h| && n <= |Tools(h, i)|
  {
    if n == 0 then [] else Stops(h, i, n - 1) + [BlockStop(ToolBlockOf(h, Tools(h, i)[n - 1], i))]
  }

  /** Length and a plain stop both end the turn, as does no reason at all; other reasons pass as they are. */
  function StopReason(reason: string): string {
    var r := TrimSpace(reason);
    if r == "tool_calls" then "tool_use" else if r in {"", "stop", "length"} then "end_turn" else reason
  }

  /** What a client receives for atom i. */
  function Written(requested: string, h: seq<Atom>, i: nat): seq<Event>
    requires i < |h|
  {
    match h[i]
    case Header(_) => []
    case Reason(_) => []
    case Said(text) =>
      Opening(requested, h, i) + (if Talking(h, i) then [] else [BlockStart(Blocks(h, i), TextKind)])
      + [TextDelta(TextBlock(h, i + 1), text)]
    case Gate => Opening(requested, h, i) + (if Talking(h, i) then [BlockStop(TextBlock(h, i))] else [])
    case Called(call) =>
      (if Mentioned(h, call.index, i) then []
       else [BlockStart(Blocks(h, i), ToolKind(if IsBlank(call.id) then "toolu_" + Decimal(call.index) else call.id,
                                               if IsBlank(call.name) then "tool_" + Decimal(call.index) else call.name))])
      + if call.arguments == "" then [] else [JsonDelta(ToolBlockOf(h, call.index, i + 1), call.arguments)]
    case End =>
      if Ended(h, i) || !Live(h, i) then []
      else
        (if Talking(h, i) then [BlockStop(TextBlock(h, i))] else []) + Stops(h, i, |Tools(h, i)|)
        + [MessageDelta(StopReason(LastReason(h, i)), LastUsage(h, i)), MessageStop]
  }

  function Log(requested: string, h: seq<Atom>, n: nat): seq<Event>
    requires n <= |h|
  {
    if n == 0 then [] else Log(requested, h, n - 1) + Written(requested, h, n - 1)
  }

  // ---- the translator, one atom at a time ------------------------------------------------------

  function Take(t: Translator, a: Atom): Translator {
    match a
    case Header(chunk) => NoteHeader(t, chunk)
    case Said(text) => ConsumeContent(t, text)
    case Gate => CloseTextBlock(EnsureStarted(t.(hasContent := true)))
    case Called(call) => ConsumeToolCall(t, call)
    case Reason(reason) => NoteFinish(t, reason)
    case End => Finished(t)
  }

  function TakeAll(t: Translator, h: seq<Atom>, n: nat): Translator
    requires n <= |h|
  {
    if n == 0 then t else Take(TakeAll(t, h, n - 1), h[n - 1])
  }

  lemma {:induction false} TakePrefix(t: Translator, a: seq<Atom>, b: seq<Atom>, n: nat)
    requires n <= |a|
    ensures TakeAll(t, a + b, n) == TakeAll(t, a, n)
  {
    hide Take;
    if n > 0 {
      TakePrefix(t, a, b, n - 1);
    }
  }

  lemma {:induction false} TakeConcat(t: Translator, a: seq<Atom>, b: seq<Atom>, n: nat)
    requires n <= |b|
    ensures TakeAll(t, a + b, |a| + n) == TakeAll(TakeAll(t, a, |a|), b, n)
  {
    hide Take;
    if n > 0 {
      TakeConcat(t, a, b, n - 1);
      assert (a + b)[|a| + n - 1] == b[n - 1];
    } else {
      TakePrefix(t, a, b, |a|);
    }
  }

  lemma TakeBoth(t: Translator, a: seq<Atom>, b: seq<Atom>)
    ensures TakeAll(t, a + b, |a + b|) == TakeAll(TakeAll(t, a, |a|), b, |b|)
  {
    hide TakeAll;
    TakeConcat(t, a, b, |b|);
  }

  lemma TakeOne(t: Translator, a: Atom)
    ensures TakeAll(t, [a], 1) == Take(t, a)
  {
    hide Take;
    assert TakeAll(t, [a], 0) == t;
  }

  lemma {:induction false} CallsTaken(t: Translator, calls: seq<ToolCall>, n: nat)
    requires n <= |calls|
    ensures |CallAtoms(calls, n)| == n && ConsumeToolCalls(t, calls, n) == TakeAll(t, CallAtoms(calls, n), n)
  {
    hide ConsumeToolCall;
    if n > 0 {
      CallsTaken(t, calls, n - 1);
      TakePrefix(t, CallAtoms(calls, n - 1), [Called(calls[n - 1])], n - 1);
    }
  }

  lemma FieldIsMeaningful(calls: seq<ToolCall>)
    ensures AnyField(calls) <==> AnyMeaningful(calls)
  {
    hide IsBlank;
    if AnyField(calls) {
      var i :| 0 <= i < |calls| &&
        (!IsBlank(calls[i].id) || !IsBlank(calls[i].kind) || !IsBlank(calls[i].name) || !IsBlank(calls[i].arguments));
      assert Meaningful(calls[i]);
    }
  }

  lemma ListTaken(t: Translator, calls: seq<ToolCall>)
    ensures ConsumeTools(t, calls) == TakeAll(t, ListAtoms(calls), |ListAtoms(calls)|)
  {
    hide AnyMeaningful, AnyField, ConsumeToolCalls, EnsureStarted, CloseTextBlock, CallAtoms;
    FieldIsMeaningful(calls);
    if AnyField(calls) {
      var t1 := Take(t, Gate);
      CallsTaken(t1, calls, |calls|);
      TakeOne(t, Gate);
      TakeBoth(t, [Gate], CallAtoms(calls, |calls|));
    }
  }

  lemma TextTaken(t: Translator, content: string)
    ensures ConsumeContent(t, content) == TakeAll(t, TextAtoms(content), |TextAtoms(content)|)
  {
    hide EnsureStarted, EnsureTextBlock;
    TakeOne(t, Said(content));
  }

  lemma ReasonTaken(t: Translator, reason: string)
    ensures NoteFinish(t, reason) == TakeAll(t, ReasonAtoms(reason), |ReasonAtoms(reason)|)
  {
    TakeOne(t, Reason(reason));
  }

  lemma ChoiceTaken(t: Translator, choice: Choice)
    ensures ConsumeChoice(t, choice) == TakeAll(t, ChoiceAtoms(choice), |ChoiceAtoms(choice)|)
  {
    hide ConsumeContent, ConsumeTools, NoteFinish, TextAtoms, ListAtoms, ReasonAtoms, TakeAll;
    var t1 := ConsumeContent(t, choice.content);
    var t2 := ConsumeTools(t1, choice.toolCalls);
    TextTaken(t, choice.content);
    ListTaken(t1, choice.toolCalls);
    ReasonTaken(t2, choice.finishReason);
    TakeBoth(t1, ListAtoms(choice.toolCalls), ReasonAtoms(choice.finishReason));
    TakeBoth(t, TextAtoms(choice.content), ListAtoms(choice.toolCalls) + ReasonAtoms(choice.finishReason));
  }

  lemma {:induction false} ChoicesTaken(t: Translator, choices: seq<Choice>, n: nat)
    requires n <= |choices|
    ensures ConsumeChoices(t, choices, n) == TakeAll(t, ChoicesAtoms(choices, n), |ChoicesAtoms(choices, n)|)
  {
    hide ConsumeChoice, ChoiceAtoms, Take;
    if n > 0 {
      ChoicesTaken(t, choices, n - 1);
      ChoiceTaken(ConsumeChoices(t, choices, n - 1), choices[n - 1]);
      TakeBoth(t, ChoicesAtoms(choices, n - 1), ChoiceAtoms(choices[n - 1]));
    }
  }

  lemma OpTaken(t: Translator, op: T.Op)
    ensures T.Apply(t, op) == TakeAll(t, OpAtoms(op), |OpAtoms(op)|)
  {
    hide Take, ConsumeChoices, ChoicesAtoms, NoteHeader, Finished;
    match op {
      case Consume(chunk) =>
        TakeOne(t, Header(chunk));
        HeaderTaken(t, chunk);
        ChoicesTaken(NoteHeader(t, chunk), chunk.choices, |chunk.choices|);
        TakeBoth(t, [Header(chunk)], ChoicesAtoms(chunk.choices, |chunk.choices|));
      case Finish =>
        TakeOne(t, End);
        EndTaken(t);
    }
  }

  lemma HeaderTaken(t: Translator, chunk: Chunk)
    ensures Take(t, Header(chunk)) == NoteHeader(t, chunk)
  {}

  lemma EndTaken(t: Translator)
    ensures Take(t, End) == Finished(t)
  {}

  lemma {:induction false} PlayTaken(model: string, ops: seq<T.Op>, n: nat)
    requires n <= |ops|
    ensures T.Play(model, ops, n) == TakeAll(Fresh(model), Atoms(ops, n), |Atoms(ops, n)|)
  {
    hide T.Apply, OpAtoms, Fresh, Take;
    if n > 0 {
      PlayTaken(model, ops, n - 1);
      OpTaken(T.Play(model, ops, n - 1), ops[n - 1]);
      TakeBoth(Fresh(model), Atoms(ops, n - 1), OpAtoms(ops[n - 1]));
    }
  }

  // ---- what the fields stand for ---------------------------------------------------------------

  ghost predicate ToolsMatch(t: Translator, h: seq<Atom>, n: nat)
    requires n <= |h|
  {
    && t.toolBlockKeys == Tools(h, n)
    && forall k ::
         && (k in t.toolBlocks <==> Mentioned(h, k, n))
         && (k in t.toolBlocks ==> t.toolBlocks[k].openIndex == ToolBlockOf(h, k, n) && (!Ended(h, n) ==> !t.toolBlocks[k].closed))
  }

  predicate HeaderMatches(t: Translator, requested: string, h: seq<Atom>, n: nat)
    requires n <= |h|
  {
    && t.messageID == MessageId(h, n) && (t.messageID != "" ==> !IsBlank(t.messageID)) && t.model == Model(requested, h, n)
    && t.finishReason == LastReason(h, n) && t.usage == LastUsage(h, n)
  }

  predicate BlocksMatch(t: Translator, h: seq<Atom>, n: nat)
    requires n <= |h|
  {
    && t.started == Live(h, n) && t.hasContent == Live(h, n) && t.finished == Ended(h, n)
    && t.textOpen == Talking(h, n) && t.textIndex == TextBlock(h, n) && t.nextIndex == Blocks(h, n)
  }

  ghost predicate Matches(t: Translator, requested: string, h: seq<Atom>, n: nat)
    requires n <= |h|
  {
    && HeaderMatches(t, requested, h, n) && BlocksMatch(t, h, n) && ToolsMatch(t, h, n) && t.out == Log(requested, h, n)
  }

  lemma LogStep(requested: string, h: seq<Atom>, i: nat)
    requires i < |h|
    ensures Log(requested, h, i + 1) == Log(requested, h, i) + Written(requested, h, i)
  {
    hide Written;
  }

  lemma ToolsKept(t: Translator, u: Translator, h: seq<Atom>, i: nat)
    requires i < |h| && ToolsMatch(t, h, i) && !h[i].Called? && !h[i].End?
    requires u.toolBlocks == t.toolBlocks && u.toolBlockKeys == t.toolBlockKeys
    ensures ToolsMatch(u, h, i + 1)
  {
    hide Blocks;
  }

  lemma HeaderKept(t: Translator, u: Translator, requested: string, h: seq<Atom>, i: nat)
    requires i < |h| && HeaderMatches(t, requested, h, i) && !h[i].Header? && !h[i].Reason?
    requires u.messageID == t.messageID && u.model == t.model && u.finishReason == t.finishReason && u.usage == t.usage
    ensures HeaderMatches(u, requested, h, i + 1)
  {
    hide IsBlank;
  }

  lemma BlocksKept(t: Translator, u: Translator, h: seq<Atom>, i: nat)
    requires i < |h| && BlocksMatch(t, h, i) && (h[i].Header? || h[i].Reason?)
    requires u.started == t.started && u.hasContent == t.hasContent && u.finished == t.finished
    requires u.textOpen == t.textOpen && u.textIndex == t.textIndex && u.nextIndex == t.nextIndex
    ensures BlocksMatch(u, h, i + 1)
  {}

  // ---- headers and reasons ---------------------------------------------------------------------

  lemma NoteHeaderMatches(t: Translator, requested: string, h: seq<Atom>, i: nat)
    requires i < |h| && h[i].Header? && HeaderMatches(t, requested, h, i)
    ensures HeaderMatches(NoteHeader(t, h[i].chunk), requested, h, i + 1)
  {
    hide IsBlank, NoteHeader, FirstNonEmpty;
    NoteHeaderIs(t, h[i].chunk);
    FirstIs(t.messageID, h[i].chunk.id);
    FirstIs(t.model, h[i].chunk.model);
  }

  lemma FirstIs(a: string, b: string)
    ensures FirstNonEmpty(a, b) == if !IsBlank(a) then a else if !IsBlank(b) then b else ""
    ensures IsBlank("")
  {
    BlankIffAllSpace("");
  }

  lemma NoteHeaderIs(t: Translator, chunk: Chunk)
    ensures var u := NoteHeader(t, chunk);
            && u.messageID == (if chunk.id != "" then FirstNonEmpty(t.messageID, chunk.id) else t.messageID)
            && u.model == (if chunk.model != "" then FirstNonEmpty(t.model, chunk.model) else t.model)
            && u.usage == (if chunk.usage.Some? then chunk.usage else t.usage) && u.finishReason == t.finishReason
  {
    hide FirstNonEmpty;
    assert chunk.usage.Some? || chunk.usage.None?;
  }

  lemma HeaderStep(t: Translator, requested: string, h: seq<Atom>, i: nat)
    requires i < |h| && h[i].Header? && Matches(t, requested, h, i)
    ensures Matches(Take(t, h[i]), requested, h, i + 1)
  {
    hide HeaderMatches, BlocksMatch, ToolsMatch, NoteHeader, Log;
    var u := Take(t, h[i]);
    T.HeaderKeepsStarted(t, h[i].chunk);
    NoteHeaderMatches(t, requested, h, i);
    BlocksKept(t, u, h, i);
    ToolsKept(t, u, h, i);
    LogStep(requested, h, i);
  }

  lemma NoteReasonMatches(t: Translator, requested: string, h: seq<Atom>, i: nat)
    requires i < |h| && h[i].Reason? && h[i].reason != "" && HeaderMatches(t, requested, h, i)
    ensures HeaderMatches(NoteFinish(t, h[i].reason), requested, h, i + 1)
  {
    hide IsBlank;
  }

  lemma ReasonStep(t: Translator, requested: string, h: seq<Atom>, i: nat)
    requires i < |h| && h[i].Reason? && h[i].reason != "" && Matches(t, requested, h, i)
    ensures Matches(Take(t, h[i]), requested, h, i + 1)
  {
    hide HeaderMatches, BlocksMatch, ToolsMatch, Log;
    var u := Take(t, h[i]);
    NoteReasonMatches(t, requested, h, i);
    BlocksKept(t, u, h, i);
    ToolsKept(t, u, h, i);
    LogStep(requested, h, i);
  }

  // ---- text ------------------------------------------------------------------------------------

  lemma OpeningStep(t: Translator, requested: string, h: seq<Atom>, i: nat)
    requires i < |h| && BlocksMatch(t, h, i) && HeaderMatches(t, requested, h, i)
    ensures var u := EnsureStarted(t.(hasContent := true));
            u == t.(hasContent := true, started := true, out := t.out + Opening(requested, h, i))
  {
    hide Model, MessageId, Blocks, TextBlock, IsBlank;
    IdMatches(t, requested, h, i);
    assert t.out + [] == t.out;
  }

  lemma IdMatches(t: Translator, requested: string, h: seq<Atom>, i: nat)
    requires i <= |h| && HeaderMatches(t, requested, h, i)
    ensures FirstNonEmpty(t.messageID, "") == MessageId(h, i)
  {
    BlankIffAllSpace("");
    hide IsBlank, MessageId;
  }

  lemma TextEvents(t: Translator, requested: string, h: seq<Atom>, i: nat)
    requires i < |h| && h[i].Said? && h[i].text != "" && BlocksMatch(t, h, i) && HeaderMatches(t, requested, h, i)
    ensures var u := ConsumeContent(t, h[i].text);
            && u == t.(hasContent := true, started := true, textOpen := true, textIndex := u.textIndex, nextIndex := u.nextIndex, out := u.out)
            && u.textIndex == TextBlock(h, i + 1) && u.nextIndex == Blocks(h, i + 1)
            && u.out == t.out + Written(requested, h, i)
  {
    hide HeaderMatches, Opening, EnsureStarted, Live;
    OpeningStep(t, requested, h, i);
    var start := Opening(requested, h, i);
    var block := if Talking(h, i) then [] else [BlockStart(Blocks(h, i), TextKind)];
    var said := [TextDelta(TextBlock(h, i + 1), h[i].text)];
    assert Written(requested, h, i) == start + block + said;
    assert t.out + (start + block + said) == (t.out + start + block) + said;
    assert t.out + start + [] == t.out + start;
  }

  lemma TextStep(t: Translator, requested: string, h: seq<Atom>, i: nat)
    requires i < |h| && h[i].Said? && h[i].text != "" && Matches(t, requested, h, i)
    ensures Matches(Take(t, h[i]), requested, h, i + 1)
  {
    hide HeaderMatches, ToolsMatch, Log, ConsumeContent, Written;
    var u := Take(t, h[i]);
    TextEvents(t, requested, h, i);
    HeaderKept(t, u, requested, h, i);
    ToolsKept(t, u, h, i);
    LogStep(requested, h, i);
  }

  // ---- the gate and the calls ------------------------------------------------------------------

  lemma GateEvents(t: Translator, requested: string, h: seq<Atom>, i: nat)
    requires i < |h| && h[i].Gate? && BlocksMatch(t, h, i) && HeaderMatches(t, requested, h, i)
    ensures var u := Take(t, h[i]);
            u == t.(hasContent := true, started := true, textOpen := false, out := t.out + Written(requested, h, i))
  {
    hide HeaderMatches, Opening, EnsureStarted, Live, TextBlock;
    OpeningStep(t, requested, h, i);
    var start := Opening(requested, h, i);
    assert t.out + (start + []) == t.out + start;
    assert t.out + (start + [BlockStop(t.textIndex)]) == t.out + start + [BlockStop(t.textIndex)];
  }

  lemma GateStep(t: Translator, requested: string, h: seq<Atom>, i: nat)
    requires i < |h| && h[i].Gate? && Matches(t, requested, h, i)
    ensures Matches(Take(t, h[i]), requested, h, i + 1)
  {
    hide HeaderMatches, ToolsMatch, Log, Written, Take;
    var u := Take(t, h[i]);
    GateEvents(t, requested, h, i);
    HeaderKept(t, u, requested, h, i);
    ToolsKept(t, u, h, i);
    LogStep(requested, h, i);
  }

  lemma NewBlockIs(t: Translator, call: ToolCall)
    ensures NewBlock(t, call) == ToolBlock(t.nextIndex, if IsBlank(call.id) then "toolu_" + Decimal(call.index) else call.id,
                                           if IsBlank(call.name) then "tool_" + Decimal(call.index) else call.name, false)
  {
    hide IsBlank, Decimal;
    NotBlank("toolu_" + Decimal(call.index));
    NotBlank("tool_" + Decimal(call.index));
  }

  lemma NotBlank(s: string)
    ensures s != "" && s[0] == 't' ==> !IsBlank(s)
  {
    if s != "" && s[0] == 't' {
      NonSpaceNotBlank(s);
    }
  }

  /** The first call of a tool opens its block. */
  lemma OpenEvents(t: Translator, h: seq<Atom>, i: nat, call: ToolCall)
    requires i < |h| && h[i] == Called(call) && BlocksMatch(t, h, i) && ToolsMatch(t, h, i)
    ensures var u := OpenToolBlock(t, call);
            && u == t.(toolBlocks := u.toolBlocks, toolBlockKeys := u.toolBlockKeys, nextIndex := u.nextIndex, out := u.out)
            && ToolsMatch(u, h, i + 1) && u.nextIndex == Blocks(h, i + 1)
            && call.index in u.toolBlocks && u.toolBlocks[call.index].openIndex == ToolBlockOf(h, call.index, i + 1)
            && u.out == t.out + if Mentioned(h, call.index, i) then []
                                else [BlockStart(Blocks(h, i), ToolKind(if IsBlank(call.id) then "toolu_" + Decimal(call.index) else call.id,
                                                                        if IsBlank(call.name) then "tool_" + Decimal(call.index) else call.name))]
  {
    hide NewBlock, Decimal, IsBlank, Live, Talking, TextBlock;
    NewBlockIs(t, call);
  }

  lemma CallEvents(t: Translator, requested: string, h: seq<Atom>, i: nat, call: ToolCall)
    requires i < |h| && h[i] == Called(call) && BlocksMatch(t, h, i) && ToolsMatch(t, h, i)
    ensures var u := ConsumeToolCall(t, call);
            && u == t.(toolBlocks := u.toolBlocks, toolBlockKeys := u.toolBlockKeys, nextIndex := u.nextIndex, out := u.out)
            && ToolsMatch(u, h, i + 1) && u.nextIndex == Blocks(h, i + 1)
            && u.out == t.out + Written(requested, h, i)
  {
    hide BlocksMatch, OpenToolBlock, Decimal, IsBlank;
    OpenEvents(t, h, i, call);
    ToolsOnly(OpenToolBlock(t, call), h, i + 1, call);
  }

  /** Only the tool fields matter to the tools. */
  lemma ToolsOnly(t: Translator, h: seq<Atom>, n: nat, call: ToolCall)
    requires n <= |h|
    ensures forall e :: ToolsMatch(Emit(t, e), h, n) == ToolsMatch(t, h, n)
  {}

  lemma CallStep(t: Translator, requested: string, h: seq<Atom>, i: nat)
    requires i < |h| && h[i].Called? && Matches(t, requested, h, i)
    ensures Matches(Take(t, h[i]), requested, h, i + 1)
  {
    hide HeaderMatches, ToolsMatch, Log, Written, ConsumeToolCall;
    var u := Take(t, h[i]);
    CallEvents(t, requested, h, i, h[i].call);
    HeaderKept(t, u, requested, h, i);
    LogStep(requested, h, i);
  }

  // ---- the end ---------------------------------------------------------------------------------

  lemma {:induction false} ToolsOnce(h: seq<Atom>, n: nat, k: int)
    requires n <= |h|
    ensures k in Tools(h, n) <==> Mentioned(h, k, n)
    ensures forall a, b :: 0 <= a < b < |Tools(h, n)| ==> Tools(h, n)[a] != Tools(h, n)[b]
  {
    if n > 0 {
      ToolsOnce(h, n - 1, k);
      if h[n - 1].Called? {
        ToolsOnce(h, n - 1, h[n - 1].call.index);
      }
    }
  }

  /** Closing the blocks one by one stops each of them. */
  lemma {:induction false} StopsWritten(t: Translator, h: seq<Atom>, i: nat, n: nat)
    requires i < |h| && n <= |t.toolBlockKeys| && ToolsMatch(t, h, i) && !Ended(h, i)
    ensures |Tools(h, i)| == |t.toolBlockKeys|
    ensures var u := CloseBlocks(t, n);
            && u == t.(toolBlocks := u.toolBlocks, out := t.out + Stops(h, i, n))
            && u.toolBlocks.Keys == t.toolBlocks.Keys
            && (forall k :: k in t.toolBlocks ==> u.toolBlocks[k].openIndex == t.toolBlocks[k].openIndex)
            && forall j :: n <= j < |t.toolBlockKeys| && t.toolBlockKeys[j] in t.toolBlocks ==>
                 u.toolBlocks[t.toolBlockKeys[j]] == t.toolBlocks[t.toolBlockKeys[j]]
  {
    hide Tools, Mentioned, ToolBlockOf, Ended;
    if n > 0 {
      StopsWritten(t, h, i, n - 1);
      var key := t.toolBlockKeys[n - 1];
      ToolsOnce(h, i, key);
      assert key in t.toolBlocks;
      StopOne(CloseBlocks(t, n - 1), key);
      assert t.out + Stops(h, i, n - 1) + [BlockStop(ToolBlockOf(h, key, i))] == t.out + Stops(h, i, n);
    } else {
      assert t.out + [] == t.out;
    }
  }

  lemma StopOne(t: Translator, key: int)
    requires key in t.toolBlocks && !t.toolBlocks[key].closed
    ensures var u := CloseBlock(t, key);
            && u == t.(toolBlocks := u.toolBlocks, out := t.out + [BlockStop(t.toolBlocks[key].openIndex)])
            && u.toolBlocks == t.toolBlocks[key := t.toolBlocks[key].(closed := true)]
  {}

  lemma ReasonIs(reason: string)
    ensures MapFinishReason(reason) == StopReason(reason)
  {
    hide TrimSpace;
  }

  /** The text block is stopped first. */
  lemma EndTalking(t: Translator, h: seq<Atom>, i: nat)
    requires i < |h| && BlocksMatch(t, h, i) && ToolsMatch(t, h, i) && Live(h, i)
    ensures var t1 := CloseTextBlock(EnsureStarted(t));
            && t1 == t.(textOpen := false, out := t.out + if Talking(h, i) then [BlockStop(TextBlock(h, i))] else [])
            && ToolsMatch(t1, h, i)
  {
    hide Talking, TextBlock, Blocks, Live, Ended, Tools, Mentioned, ToolBlockOf;
    assert t.out + [] == t.out;
  }

  lemma EndingMatches(t: Translator, u: Translator, h: seq<Atom>, i: nat)
    requires i < |h| && h[i].End? && ToolsMatch(t, h, i) && u.toolBlockKeys == t.toolBlockKeys
    requires u.toolBlocks.Keys == t.toolBlocks.Keys
    requires forall k :: k in t.toolBlocks ==> u.toolBlocks[k].openIndex == t.toolBlocks[k].openIndex
    ensures ToolsMatch(u, h, i + 1)
  {
    hide Blocks;
  }

  lemma EndEvents(t: Translator, requested: string, h: seq<Atom>, i: nat)
    requires i < |h| && h[i].End? && !Ended(h, i) && Live(h, i)
    requires BlocksMatch(t, h, i) && ToolsMatch(t, h, i) && HeaderMatches(t, requested, h, i)
    ensures var u := Finished(t);
            && u == t.(textOpen := false, finished := true, toolBlocks := u.toolBlocks, out := u.out)
            && u.out == t.out + Written(requested, h, i) && ToolsMatch(u, h, i + 1)
  {
    hide StopReason, Written, Stops, Tools, CloseBlocks, CloseTextBlock, EnsureStarted, ToolsMatch, Ended, Live, Talking, Finished;
    EndTalking(t, h, i);
    var t1 := CloseTextBlock(EnsureStarted(t));
    var keys := |t1.toolBlockKeys|;
    StopsWritten(t1, h, i, keys);
    FinishedIs(t);
    EndWritten(t.out, requested, h, i, keys);
    EndingMatches(t1, Finished(t), h, i);
  }

  lemma FinishedIs(t: Translator)
    requires !t.finished && (t.hasContent || t.started)
    ensures var t1 := CloseTextBlock(EnsureStarted(t));
            var t2 := CloseBlocks(t1, |t1.toolBlockKeys|);
            Finished(t) == t2.(finished := true, out := t2.out + [MessageDelta(StopReason(t2.finishReason), t2.usage)] + [MessageStop])
  {
    hide MapFinishReason, StopReason, CloseBlocks, CloseTextBlock, EnsureStarted;
    var t1 := CloseTextBlock(EnsureStarted(t));
    ReasonIs(CloseBlocks(t1, |t1.toolBlockKeys|).finishReason);
  }

  lemma EndWritten(out: seq<Event>, requested: string, h: seq<Atom>, i: nat, keys: nat)
    requires i < |h| && h[i].End? && !Ended(h, i) && Live(h, i) && keys == |Tools(h, i)|
    ensures var stop := if Talking(h, i) then [BlockStop(TextBlock(h, i))] else [];
            out + Written(requested, h, i)
              == out + stop + Stops(h, i, keys) + [MessageDelta(StopReason(LastReason(h, i)), LastUsage(h, i))] + [MessageStop]
  {
    hide Ended, Live, Talking, TextBlock, Stops, Tools, StopReason, LastReason, LastUsage;
    var stop := if Talking(h, i) then [BlockStop(TextBlock(h, i))] else [];
    var stops := Stops(h, i, keys);
    var last := [MessageDelta(StopReason(LastReason(h, i)), LastUsage(h, i)), MessageStop];
    assert Written(requested, h, i) == stop + stops + last;
    assert last == [last[0]] + [last[1]];
    assert out + (stop + stops + last) == out + stop + stops + [last[0]] + [last[1]];
  }

  lemma {:induction false} TalkIsLive(h: seq<Atom>, n: nat)
    requires n <= |h|
    ensures Talking(h, n) ==> Live(h, n)
  {
    if n > 0 {
      TalkIsLive(h, n - 1);
    }
  }

  lemma EndStep(t: Translator, requested: string, h: seq<Atom>, i: nat)
    requires i < |h| && h[i].End? && Matches(t, requested, h, i)
    ensures Matches(Take(t, h[i]), requested, h, i + 1)
  {
    hide HeaderMatches, Log, Blocks, TextBlock;
    var u := Take(t, h[i]);
    if !Ended(h, i) && Live(h, i) {
      hide ToolsMatch, Finished, Written;
      EndEvents(t, requested, h, i);
    } else {
      hide ToolsMatch;
      TalkIsLive(h, i);
      assert t.out + [] == t.out;
      EndingMatches(t, u, h, i);
    }
    HeaderKept(t, u, requested, h, i);
    BlocksAtEnd(h, i);
    LogStep(requested, h, i);
  }

  lemma BlocksAtEnd(h: seq<Atom>, i: nat)
    requires i < |h| && h[i].End?
    ensures Blocks(h, i + 1) == Blocks(h, i) && TextBlock(h, i + 1) == TextBlock(h, i)
  {}

  // ---- the theorem -----------------------------------------------------------------------------

  /** No atom of a history is empty: empty texts and reasons leave none. */
  predicate NonEmpty(a: Atom) {
    (a.Said? ==> a.text != "") && (a.Reason? ==> a.reason != "")
  }

  lemma {:induction false} CallsNonEmpty(calls: seq<ToolCall>, n: nat)
    requires n <= |calls|
    ensures forall a :: a in CallAtoms(calls, n) ==> NonEmpty(a)
  {
    if n > 0 {
      CallsNonEmpty(calls, n - 1);
    }
  }

  lemma ChoiceNonEmpty(choice: Choice)
    ensures forall a :: a in ChoiceAtoms(choice) ==> NonEmpty(a)
  {
    hide AnyMeaningful;
    CallsNonEmpty(choice.toolCalls, |choice.toolCalls|);
  }

  lemma {:induction false} ChoicesNonEmpty(choices: seq<Choice>, n: nat)
    requires n <= |choices|
    ensures forall a :: a in ChoicesAtoms(choices, n) ==> NonEmpty(a)
  {
    hide ChoiceAtoms, NonEmpty;
    if n > 0 {
      ChoicesNonEmpty(choices, n - 1);
      ChoiceNonEmpty(choices[n - 1]);
    }
  }

  lemma {:induction false} AtomsNonEmpty(ops: seq<T.Op>, n: nat)
    requires n <= |ops|
    ensures forall a :: a in Atoms(ops, n) ==> NonEmpty(a)
  {
    hide ChoicesAtoms;
    if n > 0 {
      AtomsNonEmpty(ops, n - 1);
      if ops[n - 1].Consume? {
        ChoicesNonEmpty(ops[n - 1].chunk.choices, |ops[n - 1].chunk.choices|);
      }
    }
  }

  lemma {:induction false} FieldsMatch(requested: string, h: seq<Atom>, n: nat)
    requires n <= |h| && forall a :: a in h ==> NonEmpty(a)
    ensures Matches(TakeAll(Fresh(requested), h, n), requested, h, n)
  {
    hide Matches, Take, Fresh;
    if n == 0 {
      FreshMatches(requested, h);
    } else {
      FieldsMatch(requested, h, n - 1);
      var t := TakeAll(Fresh(requested), h, n - 1);
      assert NonEmpty(h[n - 1]);
      match h[n - 1] {
        case Header(_) => HeaderStep(t, requested, h, n - 1);
        case Said(_) => TextStep(t, requested, h, n - 1);
        case Gate => GateStep(t, requested, h, n - 1);
        case Called(_) => CallStep(t, requested, h, n - 1);
        case Reason(_) => ReasonStep(t, requested, h, n - 1);
        case End => EndStep(t, requested, h, n - 1);
      }
    }
  }

  lemma FreshMatches(requested: string, h: seq<Atom>)
    ensures Matches(Fresh(requested), requested, h, 0)
  {}

  /** Whatever the calls, the client receives exactly what the history says. */
  lemma StreamIsExact(requested: string, ops: seq<T.Op>)
    ensures T.Play(requested, ops, |ops|).out == Log(requested, Atoms(ops, |ops|), |Atoms(ops, |ops|)|)
  {
    hide T.Play, Log, Atoms, TakeAll, Fresh, HeaderMatches, BlocksMatch, ToolsMatch, NonEmpty;
    PlayTaken(requested, ops, |ops|);
    AtomsNonEmpty(ops, |ops|);
    FieldsMatch(requested, Atoms(ops, |ops|), |Atoms(ops, |ops|)|);
  }

  // ---- tools keep their names ------------------------------------------------------------------

  /** The first call of a tool that passed the gate. */
  function FirstCall(h: seq<Atom>, k: int, n: nat): ToolCall
    requires n <= |h| && Mentioned(h, k, n)
  {
    if Mentioned(h, k, n - 1) then FirstCall(h, k, n - 1) else h[n - 1].call
  }

  /** What the client is told about a tool: its id and name, made up when blank. */
  function Introduced(call: ToolCall): Kind {
    ToolKind(if IsBlank(call.id) then "toolu_" + Decimal(call.index) else call.id,
             if IsBlank(call.name) then "tool_" + Decimal(call.index) else call.name)
  }

  predicate StartsBelow(log: seq<Event>, b: nat) {
    forall q :: 0 <= q < |log| && log[q].BlockStart? ==> log[q].index < b
  }

  predicate StartsAt(log: seq<Event>, b: nat, kind: Kind, p: nat) {
    && p < |log| && log[p] == BlockStart(b, kind)
    && forall q :: 0 <= q < |log| && log[q].BlockStart? && log[q].index == b ==> q == p
  }

  /** Block b is started once, as that kind. */
  ghost predicate StartedOnce(log: seq<Event>, b: nat, kind: Kind) {
    exists p :: StartsAt(log, b, kind, p)
  }

  lemma {:induction false} StopsOnly(h: seq<Atom>, i: nat, n: nat)
    requires i < |h| && n <= |Tools(h, i)|
    ensures forall q :: 0 <= q < |Stops(h, i, n)| ==> Stops(h, i, n)[q].BlockStop?
  {
    hide Tools, ToolBlockOf;
    if n > 0 {
      StopsOnly(h, i, n - 1);
    }
  }

  /** At most one block is started at a time, the next one. */
  lemma WrittenStarts(requested: string, h: seq<Atom>, i: nat)
    requires i < |h|
    ensures forall q :: 0 <= q < |Written(requested, h, i)| && Written(requested, h, i)[q].BlockStart? ==>
              Written(requested, h, i)[q].index == Blocks(h, i) < Blocks(h, i + 1)
    ensures Blocks(h, i) <= Blocks(h, i + 1)
    ensures h[i].Called? && !Mentioned(h, h[i].call.index, i) ==>
              StartsAt(Written(requested, h, i), Blocks(h, i), Introduced(h[i].call), 0) && Blocks(h, i) < Blocks(h, i + 1)
  {
    hide Ended, Live, Talking, TextBlock, StopReason, LastReason, LastUsage, Mentioned, ToolBlockOf, Tools, Stops, Decimal, IsBlank;
    StopsOnly(h, i, |Tools(h, i)|);
  }

  lemma StartsConcat(a: seq<Event>, c: seq<Event>, b: nat, kind: Kind)
    requires (StartedOnce(a, b, kind) && forall q :: 0 <= q < |c| && c[q].BlockStart? ==> c[q].index != b)
             || (StartsBelow(a, b) && StartsAt(c, b, kind, 0))
    ensures StartedOnce(a + c, b, kind)
  {
    if StartsBelow(a, b) && StartsAt(c, b, kind, 0) {
      assert StartsAt(a + c, b, kind, |a|);
    } else {
      var p :| StartsAt(a, b, kind, p);
      assert StartsAt(a + c, b, kind, p);
    }
  }

  lemma {:induction false} ToolIsIntroduced(requested: string, h: seq<Atom>, k: int, n: nat)
    requires n <= |h|
    ensures StartsBelow(Log(requested, h, n), Blocks(h, n))
    ensures Mentioned(h, k, n) ==>
              && ToolBlockOf(h, k, n) < Blocks(h, n)
              && StartedOnce(Log(requested, h, n), ToolBlockOf(h, k, n), Introduced(FirstCall(h, k, n)))
  {
    hide Blocks, Written, Introduced, StartedOnce, StartsAt;
    if n > 0 {
      ToolIsIntroduced(requested, h, k, n - 1);
      WrittenStarts(requested, h, n - 1);
      if Mentioned(h, k, n) {
        StartsConcat(Log(requested, h, n - 1), Written(requested, h, n - 1), ToolBlockOf(h, k, n), Introduced(FirstCall(h, k, n)));
      }
    }
  }

  /** Each tool of which a call passed the gate has one block, which names the tool by the id and the
      name of its first such call, each replaced by a made-up one if it is blank. */
  lemma ToolsKeepTheirNames(requested: string, ops: seq<T.Op>, k: int)
    ensures var h := Atoms(ops, |ops|);
            Mentioned(h, k, |h|) ==>
              var call := FirstCall(h, k, |h|);
              StartedOnce(T.Play(requested, ops, |ops|).out, ToolBlockOf(h, k, |h|),
                          ToolKind(if IsBlank(call.id) then "toolu_" + Decimal(k) else call.id,
                                   if IsBlank(call.name) then "tool_" + Decimal(k) else call.name))
  {
    hide T.Play, Log, Atoms, StartedOnce, ToolBlockOf, Decimal, IsBlank;
    var h := Atoms(ops, |ops|);
    StreamIsExact(requested, ops);
    ToolIsIntroduced(requested, h, k, |h|);
    if Mentioned(h, k, |h|) {
      FirstIsOf(h, k, |h|);
    }
  }

  lemma {:induction false} FirstIsOf(h: seq<Atom>, k: int, n: nat)
    requires n <= |h| && Mentioned(h, k, n)
    ensures FirstCall(h, k, n).index == k
  {
    if Mentioned(h, k, n - 1) {
      FirstIsOf(h, k, n - 1);
    }
  }
}

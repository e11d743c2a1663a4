/** What every Responses stream looks like, and when its output indices can be trusted. */
module ResponsesTheorems {
  import opened Optional
  import opened Text
  import opened Chunks
  import opened Sorting
  import opened ResponsesStream

  // ---- an independent reader of the stream -----------------------------------------------------

  datatype Phase = Waiting | Streaming | Finishing | Over

  /** How far the message item has got. */
  datatype MessageView = NoMessage | Added | PartOpen | TextSaid | PartClosed | MessageClosed

  datatype CallStatus = Open | ArgsSaid | CallClosed

  datatype CallView = CallView(outputIndex: nat, arguments: string, status: CallStatus)

  datatype Monitor = Monitor(phase: Phase, message: MessageView, text: string, calls: map<int, CallView>)

  const NOTHING_READ := Monitor(Waiting, NoMessage, "", map[])

  /** The one event the reader accepts out of streaming is handled here; the rest by item. */
  function Advance(m: Monitor, e: Event, normalize: string -> string): Option<Monitor> {
    match e
    case Created => if m.phase.Waiting? then Some(m.(phase := Streaming)) else None
    case DoneMarker => if m.phase.Finishing? then Some(m.(phase := Over)) else None
    case Failed(_) => None
    case Completed(_, outputText) =>
      if m.phase.Streaming? && (m.message.NoMessage? || m.message.MessageClosed?)
         && (forall k :: k in m.calls ==> m.calls[k].status.CallClosed?) && outputText == TrimSpace(m.text)
      then Some(m.(phase := Finishing)) else None
    case _ =>
      if !m.phase.Streaming? then None
      else if AboutMessage(e) then AdvanceMessage(m, e)
      else AdvanceCall(m, e, normalize)
  }

  /** The item an event belongs to. */
  function ItemOf(e: Event): Option<Item> {
    match e
    case ItemAdded(item, _, _) => Some(item)
    case PartAdded(_) => Some(Message)
    case TextDelta(_, _) => Some(Message)
    case TextDone(_, _) => Some(Message)
    case PartDone(_, _) => Some(Message)
    case ArgsDelta(k, _, _, _) => Some(Function(k))
    case ArgsDone(k, _, _, _) => Some(Function(k))
    case ItemDone(item, _, _, _) => Some(item)
    case _ => None
  }

  predicate AboutMessage(e: Event) {
    ItemOf(e) == Some(Message)
  }

  function AdvanceMessage(m: Monitor, e: Event): Option<Monitor>
    requires AboutMessage(e)
  {
    if e.outputIndex != MESSAGE_INDEX then None
    else if e.ItemAdded? && m.message.NoMessage? then Some(m.(message := Added))
    else if e.PartAdded? && m.message.Added? then Some(m.(message := PartOpen))
    else if e.TextDelta? && m.message.PartOpen? then Some(m.(text := m.text + e.delta))
    else if e.TextDone? && m.message.PartOpen? && e.text == m.text then Some(m.(message := TextSaid))
    else if e.PartDone? && m.message.TextSaid? && e.text == m.text then Some(m.(message := PartClosed))
    else if e.ItemDone? && m.message.PartClosed? && e.content == m.text then Some(m.(message := MessageClosed))
    else None
  }

  function AdvanceCall(m: Monitor, e: Event, normalize: string -> string): Option<Monitor> {
    match e
    case ItemAdded(Function(k), i, _) =>
      if k in m.calls then None else Some(m.(calls := m.calls[k := CallView(i, "", Open)]))
    case ArgsDelta(k, i, _, delta) =>
      if k in m.calls && m.calls[k].status.Open? && m.calls[k].outputIndex == i
      then Some(m.(calls := m.calls[k := m.calls[k].(arguments := m.calls[k].arguments + delta)])) else None
    case ArgsDone(k, i, _, arguments) =>
      if k in m.calls && m.calls[k].status.Open? && m.calls[k].outputIndex == i && arguments == normalize(m.calls[k].arguments)
      then Some(m.(calls := m.calls[k := m.calls[k].(status := ArgsSaid)])) else None
    case ItemDone(Function(k), i, _, content) =>
      if k in m.calls && m.calls[k].status.ArgsSaid? && m.calls[k].outputIndex == i && content == normalize(m.calls[k].arguments)
      then Some(m.(calls := m.calls[k := m.calls[k].(status := CallClosed)])) else None
    case _ => None
  }

  /** Reads a whole log; None once an event is out of place. */
  function Watch(log: seq<Event>, normalize: string -> string): Option<Monitor> {
    if log == [] then Some(NOTHING_READ)
    else
      var before := Watch(log[..|log| - 1], normalize);
      if before.None? then None else Advance(before.value, log[|log| - 1], normalize)
  }

  lemma WatchMore(log: seq<Event>, e: Event, normalize: string -> string)
    ensures Watch(log + [e], normalize)
         == if Watch(log, normalize).None? then None else Advance(Watch(log, normalize).value, e, normalize)
  {
    assert (log + [e])[..|log|] == log;
  }

  // ---- the input as a sequence of atoms --------------------------------------------------------

  /** The two things a choice can bring: text, then tool calls. */
  datatype Atom = Content(text: string) | Call(call: ToolCall)

  function CallAtoms(calls: seq<ToolCall>, n: nat): seq<Atom>
    requires n <= |calls|
  {
    if n == 0 then [] else CallAtoms(calls, n - 1) + [Call(calls[n - 1])]
  }

  function ChoiceAtoms(choice: Choice): seq<Atom> {
    (if choice.content == "" then [] else [Content(choice.content)]) + CallAtoms(choice.toolCalls, |choice.toolCalls|)
  }

  function ChoicesAtoms(choices: seq<Choice>, n: nat): seq<Atom>
    requires n <= |choices|
  {
    if n == 0 then [] else ChoicesAtoms(choices, n - 1) + ChoiceAtoms(choices[n - 1])
  }

  /** Everything the first n chunks bring, in order. */
  function Atoms(chunks: seq<Chunk>, n: nat): seq<Atom>
    requires n <= |chunks|
  {
    if n == 0 then [] else Atoms(chunks, n - 1) + ChoicesAtoms(chunks[n - 1].choices, |chunks[n - 1].choices|)
  }

  function Take(t: Translator, a: Atom): Translator {
    match a
    case Content(text) => ConsumeContent(t, text)
    case Call(call) => ConsumeToolCall(t, call)
  }

  function TakeAll(t: Translator, atoms: seq<Atom>, n: nat): Translator
    requires n <= |atoms|
  {
    if n == 0 then t else Take(TakeAll(t, atoms, n - 1), atoms[n - 1])
  }

  lemma {:induction false} TakeConcat(t: Translator, a: seq<Atom>, b: seq<Atom>, n: nat)
    requires n <= |b|
    ensures TakeAll(t, a + b, |a| + n) == TakeAll(TakeAll(t, a, |a|), b, n)
  {
    hide Take;
    if n > 0 {
      TakeConcat(t, a, b, n - 1);
    } else {
      TakePrefix(t, a, b, |a|);
    }
  }

  lemma {:induction false} TakePrefix(t: Translator, a: seq<Atom>, b: seq<Atom>, n: nat)
    requires n <= |a|
    ensures TakeAll(t, a + b, n) == TakeAll(t, a, n)
  {
    hide Take;
    if n > 0 {
      TakePrefix(t, a, b, n - 1);
    }
  }

  lemma {:induction false} CallsAreAtoms(t: Translator, calls: seq<ToolCall>, n: nat)
    requires n <= |calls|
    ensures |CallAtoms(calls, n)| == n
    ensures ConsumeToolCalls(t, calls, n) == TakeAll(t, CallAtoms(calls, n), n)
  {
    hide ConsumeToolCall;
    if n > 0 {
      CallsAreAtoms(t, calls, n - 1);
      TakePrefix(t, CallAtoms(calls, n - 1), [Call(calls[n - 1])], n - 1);
    }
  }

  lemma ChoiceIsAtoms(t: Translator, choice: Choice)
    ensures ConsumeChoice(t, choice) == TakeAll(t, ChoiceAtoms(choice), |ChoiceAtoms(choice)|)
  {
    var calls := CallAtoms(choice.toolCalls, |choice.toolCalls|);
    CallsAreAtoms(ConsumeContent(t, choice.content), choice.toolCalls, |choice.toolCalls|);
    if choice.content == "" {
      assert ChoiceAtoms(choice) == calls;
    } else {
      TakeConcat(t, [Content(choice.content)], calls, |calls|);
      assert TakeAll(t, [Content(choice.content)], 1) == Take(TakeAll(t, [Content(choice.content)], 0), Content(choice.content));
    }
    hide ConsumeContent, ConsumeToolCalls, CallAtoms;
  }

  lemma {:induction false} ChoicesAreAtoms(t: Translator, choices: seq<Choice>, n: nat)
    requires n <= |choices|
    ensures ConsumeChoices(t, choices, n) == TakeAll(t, ChoicesAtoms(choices, n), |ChoicesAtoms(choices, n)|)
  {
    hide ConsumeChoice, ChoiceAtoms;
    if n > 0 {
      ChoicesAreAtoms(t, choices, n - 1);
      ChoiceIsAtoms(ConsumeChoices(t, choices, n - 1), choices[n - 1]);
      TakeConcat(t, ChoicesAtoms(choices, n - 1), ChoiceAtoms(choices[n - 1]), |ChoiceAtoms(choices[n - 1])|);
    }
  }

  /** The translator after the first n chunks. */
  function Feed(chunks: seq<Chunk>, n: nat): Translator
    requires n <= |chunks|
  {
    if n == 0 then Fresh else ConsumeChunk(Feed(chunks, n - 1), chunks[n - 1])
  }

  lemma {:induction false} FeedIsAtoms(chunks: seq<Chunk>, n: nat)
    requires n <= |chunks|
    ensures Feed(chunks, n) == TakeAll(Fresh, Atoms(chunks, n), |Atoms(chunks, n)|)
  {
    hide ConsumeChoices, ChoicesAtoms, Take;
    if n > 0 {
      FeedIsAtoms(chunks, n - 1);
      var more := ChoicesAtoms(chunks[n - 1].choices, |chunks[n - 1].choices|);
      ChoicesAreAtoms(Feed(chunks, n - 1), chunks[n - 1].choices, |chunks[n - 1].choices|);
      TakeConcat(Fresh, Atoms(chunks, n - 1), more, |more|);
    }
  }

  // ---- what the atoms say ----------------------------------------------------------------------

  predicate AnyText(atoms: seq<Atom>, n: nat)
    requires n <= |atoms|
  {
    n > 0 && (AnyText(atoms, n - 1) || (atoms[n - 1].Content? && atoms[n - 1].text != ""))
  }

  /** What to collect: the text, or one tool's argument fragments. */
  datatype Wanted = SaidText | ArgsFor(tool: int)

  function Part(a: Atom, w: Wanted): string {
    match a
    case Content(text) => if w.SaidText? then text else ""
    case Call(call) => if w == ArgsFor(call.index) then call.arguments else ""
  }

  function Gathered(atoms: seq<Atom>, w: Wanted, n: nat): string
    requires n <= |atoms|
  {
    if n == 0 then "" else Gathered(atoms, w, n - 1) + Part(atoms[n - 1], w)
  }

  predicate Mentions(atoms: seq<Atom>, k: int, n: nat)
    requires n <= |atoms|
  {
    n > 0 && (Mentions(atoms, k, n - 1) || (atoms[n - 1].Call? && atoms[n - 1].call.index == k))
  }

  /** Some tool call came before any text. */
  predicate CallFirst(atoms: seq<Atom>, n: nat)
    requires n <= |atoms|
  {
    n > 0 && (CallFirst(atoms, n - 1) || (atoms[n - 1].Call? && !AnyText(atoms, n - 1)))
  }

  // ---- the translator under the reader's eyes --------------------------------------------------

  ghost predicate Silent(t: Translator) {
    t == Fresh.(hasContent := t.hasContent)
  }

  /** The fields agree with what a reader has seen. */
  ghost predicate Tracks(t: Translator, m: Monitor) {
    && m.phase.Streaming?
    && m.message == (if t.messageStarted then PartOpen else NoMessage)
    && m.text == t.messageText
    && m.calls.Keys == t.functionCalls.Keys
    && (forall k :: k in t.functionCalls ==>
          m.calls[k] == CallView(t.functionCalls[k].outputIndex, t.functionCalls[k].arguments, Open))
  }

  ghost predicate Live(t: Translator, normalize: string -> string) {
    t.headersWritten && Watch(t.out, normalize).Some? && Tracks(t, Watch(t.out, normalize).value)
  }

  ghost predicate Keyed(t: Translator) {
    Distinct(t.functionIndexes) && forall k :: k in t.functionIndexes <==> k in t.functionCalls
  }

  /** The state after an emitted event, seen by the reader. */
  lemma EmitWatch(t: Translator, e: Event, normalize: string -> string)
    requires if t.headersWritten then Watch(t.out, normalize).Some? else t.out == []
    ensures var before := if t.headersWritten then Watch(t.out, normalize).value else NOTHING_READ.(phase := Streaming);
            Watch(Emit(t, e).out, normalize) == Advance(before, e, normalize)
  {
    if t.headersWritten {
      WatchMore(t.out, e, normalize);
    } else {
      WatchMore([], Created, normalize);
      WatchMore([Created], e, normalize);
      assert [] + [Created] == [Created];
      assert [Created] + [e] == [Created, e];
      assert t.out + [Created, e] == [Created, e];
    }
  }

  lemma MessageLive(t: Translator, normalize: string -> string)
    requires (Silent(t) || Live(t, normalize)) && !t.messageStarted
    ensures Live(EnsureMessage(t), normalize) && EnsureMessage(t).messageStarted
  {
    var t1 := t.(messageStarted := true);
    EmitWatch(t1, ItemAdded(Message, MESSAGE_INDEX, NoTitle), normalize);
    var t2 := Emit(t1, ItemAdded(Message, MESSAGE_INDEX, NoTitle));
    EmitWatch(t2, PartAdded(MESSAGE_INDEX), normalize);
    hide Watch;
  }

  lemma ContentLive(t: Translator, text: string, normalize: string -> string)
    requires Silent(t) || Live(t, normalize)
    ensures text != "" ==> Live(ConsumeContent(t, text), normalize)
    ensures text == "" ==> ConsumeContent(t, text) == t
  {
    if text != "" {
      var t0 := t.(hasContent := true);
      if !t.messageStarted { MessageLive(t0, normalize); }
      var t1 := EnsureMessage(t0);
      EmitWatch(t1.(messageText := t1.messageText + text), TextDelta(MESSAGE_INDEX, text), normalize);
      hide Watch, EnsureMessage;
    }
  }

  lemma OpenCallLive(t: Translator, call: ToolCall, normalize: string -> string)
    requires Silent(t) || Live(t, normalize)
    ensures Live(OpenCall(t, call), normalize) && call.index in OpenCall(t, call).functionCalls
  {
    hide Watch, CallIdFor;
    if call.index !in t.functionCalls {
      var u := OpenCall(t, call);
      var item := u.functionCalls[call.index];
      var t1 := t.(functionCalls := u.functionCalls, functionIndexes := u.functionIndexes);
      EmitWatch(t1, ItemAdded(Function(call.index), item.outputIndex, Titled(item.callId, item.name)), normalize);
    }
  }

  lemma FillLive(t: Translator, call: ToolCall, normalize: string -> string)
    requires Live(t, normalize) && call.index in t.functionCalls
    ensures var item := FillCall(t.functionCalls[call.index], call);
            var t2 := t.(functionCalls := t.functionCalls[call.index := item]);
            Live(if call.arguments != "" then Emit(t2, ArgsDelta(call.index, item.outputIndex, item.callId, call.arguments)) else t2, normalize)
  {
    var item := FillCall(t.functionCalls[call.index], call);
    var t2 := t.(functionCalls := t.functionCalls[call.index := item]);
    if call.arguments != "" {
      EmitWatch(t2, ArgsDelta(call.index, item.outputIndex, item.callId, call.arguments), normalize);
    } else {
      assert item.arguments == t.functionCalls[call.index].arguments;
    }
    hide Watch;
  }

  lemma CallLive(t: Translator, call: ToolCall, normalize: string -> string)
    requires Silent(t) || Live(t, normalize)
    ensures Live(ConsumeToolCall(t, call), normalize)
  {
    var t0 := if Meaningful(call) then t.(hasContent := true) else t;
    assert Silent(t0) || Live(t0, normalize) by { hide Meaningful, Watch; }
    hide Meaningful, Live, OpenCall;
    OpenCallLive(t0, call, normalize);
    FillLive(OpenCall(t0, call), call, normalize);
  }
}

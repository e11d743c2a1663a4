/** Under which id and name each tool call of a Responses stream appears. */
module ResponsesNames {
  import opened Text
  import opened Chunks
  import opened Sorting
  import opened ResponsesStream
  import opened ResponsesTheorems
  import O = ResponsesOutcome

  // ---- from the chunks -------------------------------------------------------------------------

  /** The id of a tool's first call, or a generated one if that is blank; later ids do not count. */
  function FirstId(atoms: seq<Atom>, k: int, n: nat): CallId
    requires n <= |atoms| && Mentions(atoms, k, n)
  {
    if Mentions(atoms, k, n - 1) then FirstId(atoms, k, n - 1)
    else if IsBlank(atoms[n - 1].call.id) then Generated else Given(atoms[n - 1].call.id)
  }

  /** The first name of a tool that is not empty. */
  function FirstName(atoms: seq<Atom>, k: int, n: nat): string
    requires n <= |atoms|
  {
    if n == 0 then ""
    else
      var earlier := FirstName(atoms, k, n - 1);
      if earlier == "" && atoms[n - 1].Call? && atoms[n - 1].call.index == k then atoms[n - 1].call.name else earlier
  }

  // ---- what the translator keeps ---------------------------------------------------------------

  /** Before Finish: each event about a tool carries its id; its name is announced as it will be, or
      empty. */
  predicate Announces(e: Event, calls: map<int, FunctionCall>) {
    match e
    case ItemAdded(Function(k), _, title) =>
      k in calls && title.Titled? && title.callId == calls[k].callId && (title.name == "" || title.name == calls[k].name)
    case ItemAdded(Message, _, title) => title.NoTitle?
    case ArgsDelta(k, _, id, _) => k in calls && id == calls[k].callId
    case ArgsDone(_, _, _, _) => false
    case ItemDone(_, _, _, _) => false
    case _ => true
  }

  ghost predicate Titles(t: Translator) {
    && (forall q :: 0 <= q < |t.out| ==> Announces(t.out[q], t.functionCalls))
    && (forall k :: k in t.functionCalls ==> t.functionCalls[k].callId != Given(""))
  }

  lemma EmitAnnounces(t: Translator, e: Event)
    requires Titles(t) && Announces(e, t.functionCalls)
    ensures Titles(Emit(t, e))
  {}

  lemma ContentTitles(t: Translator, text: string)
    requires Titles(t)
    ensures Titles(ConsumeContent(t, text))
  {
    hide Titles, Emit;
    if text != "" {
      var t0 := t.(hasContent := true);
      FlagsTitles(t);
      if !t.messageStarted {
        FlagsTitles(t0);
        EmitAnnounces(t0.(messageStarted := true), ItemAdded(Message, MESSAGE_INDEX, NoTitle));
        EmitAnnounces(Emit(t0.(messageStarted := true), ItemAdded(Message, MESSAGE_INDEX, NoTitle)), PartAdded(MESSAGE_INDEX));
      }
      var t1 := EnsureMessage(t0);
      FlagsTitles(t1);
      EmitAnnounces(t1.(messageText := t1.messageText + text), TextDelta(MESSAGE_INDEX, text));
    }
  }

  /** Only the events and the calls matter. */
  lemma FlagsTitles(t: Translator)
    ensures Titles(t.(hasContent := true)) == Titles(t)
    ensures Titles(t.(messageStarted := true)) == Titles(t)
    ensures forall s :: Titles(t.(messageText := s)) == Titles(t)
  {}

  /** The entry of a tool when one of its calls has been opened. */
  function Opened(t: Translator, call: ToolCall): FunctionCall {
    if call.index in t.functionCalls then t.functionCalls[call.index]
    else FunctionCall(NextFunctionOutputIndex(t), CallIdFor(call.id), call.name, "")
  }

  predicate SameElsewhere(t: Translator, u: Translator, k: int) {
    u.functionCalls - {k} == t.functionCalls - {k}
  }

  lemma OpenTitles(t: Translator, call: ToolCall)
    requires Titles(t)
    ensures Titles(OpenCall(t, call))
    ensures var u := OpenCall(t, call);
            call.index in u.functionCalls && u.functionCalls[call.index] == Opened(t, call) && SameElsewhere(t, u, call.index)
  {
    BlankIffAllSpace("");
    hide IsBlank;
  }

  lemma FillTitles(t: Translator, call: ToolCall)
    requires Titles(t) && call.index in t.functionCalls
    ensures var item := FillCall(t.functionCalls[call.index], call);
            Titles(t.(functionCalls := t.functionCalls[call.index := item]))
  {}

  lemma CallTitles(t: Translator, call: ToolCall)
    requires Titles(t)
    ensures Titles(ConsumeToolCall(t, call))
  {
    hide Titles, Meaningful, OpenCall, Announces;
    var t0 := if Meaningful(call) then t.(hasContent := true) else t;
    FlagsTitles(t);
    OpenTitles(t0, call);
    var t1 := OpenCall(t0, call);
    FillTitles(t1, call);
    var item := FillCall(t1.functionCalls[call.index], call);
    var t2 := t1.(functionCalls := t1.functionCalls[call.index := item]);
    DeltaAnnounces(t2, call);
    if call.arguments != "" {
      EmitAnnounces(t2, ArgsDelta(call.index, item.outputIndex, item.callId, call.arguments));
    }
  }

  lemma CallEntry(t: Translator, call: ToolCall)
    requires Titles(t)
    ensures var u := ConsumeToolCall(t, call);
            && call.index in u.functionCalls
            && u.functionCalls[call.index].callId == Opened(t, call).callId
            && u.functionCalls[call.index].name == (if Opened(t, call).name == "" then call.name else Opened(t, call).name)
            && SameElsewhere(t, u, call.index)
  {
    hide Titles, Meaningful, OpenCall, Announces, Emit, FillCall, SameElsewhere, CallIdFor, NextFunctionOutputIndex;
    var t0 := if Meaningful(call) then t.(hasContent := true) else t;
    FlagsTitles(t);
    OpenTitles(t0, call);
    var t1 := OpenCall(t0, call);
    NoEmptyId(t1, call.index);
    var item := FillCall(t1.functionCalls[call.index], call);
    FillEntry(t1.functionCalls[call.index], call);
    SetElsewhere(t0, t1, call.index, item);
    assert t0.functionCalls == t.functionCalls && Opened(t0, call).callId == Opened(t, call).callId && Opened(t0, call).name == Opened(t, call).name;
    SameAlike(t, t0);
    EmitKeeps(t1.(functionCalls := t1.functionCalls[call.index := item]), ArgsDelta(call.index, item.outputIndex, item.callId, call.arguments));
    SameAlike(ConsumeToolCall(t, call), t1.(functionCalls := t1.functionCalls[call.index := item]));
  }

  lemma FillEntry(c: FunctionCall, call: ToolCall)
    requires c.callId != Given("")
    ensures FillCall(c, call).callId == c.callId && FillCall(c, call).name == if c.name == "" then call.name else c.name
  {}

  lemma SetElsewhere(t: Translator, u: Translator, k: int, item: FunctionCall)
    requires SameElsewhere(t, u, k)
    ensures SameElsewhere(t, u.(functionCalls := u.functionCalls[k := item]), k)
  {
    assert u.functionCalls[k := item] - {k} == u.functionCalls - {k};
  }

  lemma SameAlike(t: Translator, u: Translator)
    requires t.functionCalls == u.functionCalls
    ensures forall v, k :: (SameElsewhere(t, v, k) <==> SameElsewhere(u, v, k)) && (SameElsewhere(v, t, k) <==> SameElsewhere(v, u, k))
  {}

  lemma NoEmptyId(t: Translator, k: int)
    requires Titles(t) && k in t.functionCalls
    ensures t.functionCalls[k].callId != Given("")
  {}

  lemma DeltaAnnounces(t: Translator, call: ToolCall)
    requires call.index in t.functionCalls
    ensures var item := t.functionCalls[call.index];
            Announces(ArgsDelta(call.index, item.outputIndex, item.callId, call.arguments), t.functionCalls)
  {}

  lemma EmitKeeps(t: Translator, e: Event)
    ensures Emit(t, e).functionCalls == t.functionCalls
  {}

  /** The entries agree with the calls that made them. */
  ghost predicate Named(t: Translator, atoms: seq<Atom>, n: nat)
    requires n <= |atoms|
  {
    forall k ::
      && (k in t.functionCalls <==> Mentions(atoms, k, n))
      && (k in t.functionCalls ==>
            t.functionCalls[k].callId == FirstId(atoms, k, n) && t.functionCalls[k].name == FirstName(atoms, k, n))
  }

  lemma {:induction false} UnmentionedName(atoms: seq<Atom>, k: int, n: nat)
    requires n <= |atoms| && !Mentions(atoms, k, n)
    ensures FirstName(atoms, k, n) == ""
  {
    if n > 0 {
      UnmentionedName(atoms, k, n - 1);
    }
  }

  lemma NamedStep(t: Translator, atoms: seq<Atom>, n: nat)
    requires n < |atoms| && Titles(t) && Named(t, atoms, n)
    ensures Titles(Take(t, atoms[n])) && Named(Take(t, atoms[n]), atoms, n + 1)
  {
    hide Titles, ConsumeContent, ConsumeToolCall, IsBlank;
    match atoms[n] {
      case Content(text) =>
        ContentTitles(t, text);
        O.ContentEffect(t, text);
      case Call(call) =>
        CallTitles(t, call);
        CallEntry(t, call);
        var u := ConsumeToolCall(t, call);
        if !Mentions(atoms, call.index, n) {
          UnmentionedName(atoms, call.index, n);
        }
        forall k | k != call.index
          ensures (k in u.functionCalls <==> k in t.functionCalls) && (k in t.functionCalls ==> u.functionCalls[k] == t.functionCalls[k])
        {
          Elsewhere(t, u, call.index, k);
        }
    }
  }

  lemma Elsewhere(t: Translator, u: Translator, k: int, l: int)
    requires SameElsewhere(t, u, k) && l != k
    ensures (l in u.functionCalls <==> l in t.functionCalls) && (l in t.functionCalls ==> u.functionCalls[l] == t.functionCalls[l])
  {
    assert l in u.functionCalls <==> l in u.functionCalls - {k};
    assert l in t.functionCalls <==> l in t.functionCalls - {k};
    assert l in t.functionCalls - {k} ==> (t.functionCalls - {k})[l] == t.functionCalls[l];
    assert l in u.functionCalls - {k} ==> (u.functionCalls - {k})[l] == u.functionCalls[l];
  }

  lemma {:induction false} AllNamed(atoms: seq<Atom>, n: nat)
    requires n <= |atoms|
    ensures Titles(TakeAll(Fresh, atoms, n)) && Named(TakeAll(Fresh, atoms, n), atoms, n)
  {
    hide Titles, Named, Take;
    if n == 0 {
      FreshNamed(atoms);
    } else {
      AllNamed(atoms, n - 1);
      NamedStep(TakeAll(Fresh, atoms, n - 1), atoms, n - 1);
    }
  }

  lemma FreshNamed(atoms: seq<Atom>)
    ensures Titles(Fresh) && Named(Fresh, atoms, 0)
  {}

  // ---- what the client is told -----------------------------------------------------------------

  /** In a finished stream the closing events carry the final title. */
  predicate Tells(e: Event, calls: map<int, FunctionCall>) {
    match e
    case ArgsDone(k, _, title, _) => k in calls && title == Titled(calls[k].callId, calls[k].name)
    case ItemDone(Function(k), _, title, _) => k in calls && title == Titled(calls[k].callId, calls[k].name)
    case ItemDone(Message, _, title, _) => title.NoTitle?
    case _ => Announces(e, calls)
  }

  ghost predicate Told(t: Translator) {
    forall q :: 0 <= q < |t.out| ==> Tells(t.out[q], t.functionCalls)
  }

  lemma EmitTold(t: Translator, e: Event)
    requires Told(t) && Tells(e, t.functionCalls)
    ensures Told(Emit(t, e)) && Emit(t, e).functionCalls == t.functionCalls
  {}

  lemma CloseMessageTold(t: Translator)
    requires Told(t)
    ensures Told(CloseMessage(t)) && CloseMessage(t).functionCalls == t.functionCalls
  {
    hide Told, Emit;
    if t.messageStarted {
      var said := TextDone(MESSAGE_INDEX, t.messageText);
      EmitTold(t, said);
      EmitTold(Emit(t, said), PartDone(MESSAGE_INDEX, t.messageText));
      EmitTold(Emit(Emit(t, said), PartDone(MESSAGE_INDEX, t.messageText)), ItemDone(Message, MESSAGE_INDEX, NoTitle, t.messageText));
    }
  }

  lemma CloseCallTold(t: Translator, k: int, normalize: string -> string)
    requires Told(t)
    ensures Told(CloseCall(t, k, normalize)) && CloseCall(t, k, normalize).functionCalls == t.functionCalls
  {
    hide Told, Emit;
    if k in t.functionCalls {
      var call := t.functionCalls[k];
      var title, arguments := Titled(call.callId, call.name), normalize(call.arguments);
      EmitTold(t, ArgsDone(k, call.outputIndex, title, arguments));
      EmitTold(Emit(t, ArgsDone(k, call.outputIndex, title, arguments)), ItemDone(Function(k), call.outputIndex, title, arguments));
    }
  }

  lemma {:induction false} CloseCallsTold(t: Translator, keys: seq<int>, n: nat, normalize: string -> string)
    requires Told(t) && n <= |keys|
    ensures Told(CloseCalls(t, keys, n, normalize)) && CloseCalls(t, keys, n, normalize).functionCalls == t.functionCalls
  {
    hide Told, CloseCall;
    if n > 0 {
      CloseCallsTold(t, keys, n - 1, normalize);
      CloseCallTold(CloseCalls(t, keys, n - 1, normalize), keys[n - 1], normalize);
    }
  }

  lemma DoneTold(t: Translator, e: Event)
    requires Told(t) && e.Completed?
    ensures Told(Emit(t, e).(out := Emit(t, e).out + [DoneMarker], completed := true))
    ensures Emit(t, e).functionCalls == t.functionCalls
  {}

  lemma FinishTold(t: Translator, normalize: string -> string)
    requires Told(t)
    ensures Told(Finished(t, normalize)) && Finished(t, normalize).functionCalls == t.functionCalls
  {
    hide Told, CloseMessage, CloseCalls, SortedIndexes, OutputItems, TrimSpace, Emit;
    var keys := SortedIndexes(t);
    CloseMessageTold(t);
    CloseCallsTold(CloseMessage(t), keys, |keys|, normalize);
    DoneTold(CloseCalls(CloseMessage(t), keys, |keys|, normalize), Completed(OutputItems(t, normalize), TrimSpace(t.messageText)));
    CompletedTold(t);
  }

  lemma CompletedTold(t: Translator)
    ensures Told(t.(completed := true)) == Told(t)
  {}

  lemma TitlesTold(t: Translator)
    requires Titles(t)
    ensures Told(t)
  {
    forall q | 0 <= q < |t.out| ensures Tells(t.out[q], t.functionCalls) {
      assert Announces(t.out[q], t.functionCalls);
    }
  }

  /** What an event may say about tool k. */
  predicate Says(e: Event, k: int, id: CallId, name: string) {
    match e
    case ItemAdded(Function(l), _, title) => l == k ==> title in {Titled(id, name), Titled(id, "")}
    case ArgsDelta(l, _, callId, _) => l == k ==> callId == id
    case ArgsDone(l, _, title, _) => l == k ==> title == Titled(id, name)
    case ItemDone(Function(l), _, title, _) => l == k ==> title == Titled(id, name)
    case _ => true
  }

  /** In a finished stream a tool goes by one id, its first call's or a generated one if that is blank,
      and by its first name that is not empty; before that name is known it is announced without. */
  lemma ToolsKeepTheirNames(chunks: seq<Chunk>, normalize: string -> string, k: int)
    ensures var atoms := Atoms(chunks, |chunks|);
            Mentions(atoms, k, |atoms|) ==>
              forall q :: 0 <= q < |O.Received(chunks, normalize)| ==>
                Says(O.Received(chunks, normalize)[q], k, FirstId(atoms, k, |atoms|), FirstName(atoms, k, |atoms|))
  {
    hide Atoms, Finished, Feed, TakeAll, Titles, FirstId, FirstName;
    var atoms := Atoms(chunks, |chunks|);
    var t := Feed(chunks, |chunks|);
    FeedIsAtoms(chunks, |chunks|);
    AllNamed(atoms, |atoms|);
    TitlesTold(t);
    FinishTold(t, normalize);
  }

  /** And so it does in the output list of the final response. */
  lemma {:induction false} ItemsAreNamed(t: Translator, keys: seq<int>, n: nat, normalize: string -> string)
    requires n <= |keys|
    ensures forall j :: 0 <= j < |FunctionItems(t, keys, n, normalize)| ==>
              var item := FunctionItems(t, keys, n, normalize)[j];
              && item.FunctionItem? && item.tool in t.functionCalls
              && item.callId == t.functionCalls[item.tool].callId && item.name == t.functionCalls[item.tool].name
  {
    if n > 0 {
      ItemsAreNamed(t, keys, n - 1, normalize);
    }
  }

  lemma OutputIsNamed(chunks: seq<Chunk>, normalize: string -> string, j: nat)
    ensures var atoms, items := Atoms(chunks, |chunks|), OutputItems(Feed(chunks, |chunks|), normalize);
            j < |items| && items[j].FunctionItem? ==>
              && Mentions(atoms, items[j].tool, |atoms|)
              && items[j].callId == FirstId(atoms, items[j].tool, |atoms|)
              && items[j].name == FirstName(atoms, items[j].tool, |atoms|)
  {
    hide Atoms, Feed, TakeAll, Titles, FirstId, FirstName, SortedIndexes, FunctionItems, TrimSpace, Mentions;
    var t := Feed(chunks, |chunks|);
    FeedIsAtoms(chunks, |chunks|);
    AllNamed(Atoms(chunks, |chunks|), |Atoms(chunks, |chunks|)|);
    ItemsAreNamed(t, SortedIndexes(t), |SortedIndexes(t)|, normalize);
  }
}

/** What a well-formed Responses stream is, in plain terms, and that the reader accepts exactly those. */
module ResponsesForm {
  import opened Optional
  import opened Text
  import opened ResponsesStream
  import opened ResponsesTheorems

  // ---- the plain statement ---------------------------------------------------------------------

  /** The events among the first n that belong to an item, in order. */
  function Of(log: seq<Event>, item: Item, n: nat): seq<Event>
    requires n <= |log|
  {
    if n == 0 then []
    else
      var before := Of(log, item, n - 1);
      if ItemOf(log[n - 1]) == Some(item) then before + [log[n - 1]] else before
  }

  function DeltaOf(e: Event): string {
    if e.TextDelta? || e.ArgsDelta? then e.delta else ""
  }

  /** The fragments of the first n events, joined. */
  function Deltas(s: seq<Event>, n: nat): string
    requires n <= |s|
  {
    if n == 0 then "" else Deltas(s, n - 1) + DeltaOf(s[n - 1])
  }

  predicate IsAdded(e: Event, item: Item, i: nat) {
    e.ItemAdded? && e.item == item && e.outputIndex == i
  }

  predicate IsDone(e: Event, item: Item, i: nat, content: string) {
    e.ItemDone? && e.item == item && e.outputIndex == i && e.content == content
  }

  /** The first n events open the message and add text to it. */
  predicate MessageOpen(s: seq<Event>, n: nat) {
    && 2 <= n <= |s| && IsAdded(s[0], Message, MESSAGE_INDEX) && s[1] == PartAdded(MESSAGE_INDEX)
    && forall j :: 2 <= j < n ==> s[j].TextDelta? && s[j].outputIndex == MESSAGE_INDEX
  }

  /** Opened, text in pieces, the whole text said again twice, closed. */
  predicate WholeMessage(s: seq<Event>) {
    && |s| >= 3 && MessageOpen(s, |s| - 3)
    && s[|s| - 3] == TextDone(MESSAGE_INDEX, Deltas(s, |s|)) && s[|s| - 2] == PartDone(MESSAGE_INDEX, Deltas(s, |s|))
    && IsDone(s[|s| - 1], Message, MESSAGE_INDEX, Deltas(s, |s|))
  }

  /** The first n events open tool k under output index i and add arguments to it. */
  predicate CallOpen(s: seq<Event>, n: nat, k: int, i: nat) {
    && 1 <= n <= |s| && IsAdded(s[0], Function(k), i)
    && forall j :: 1 <= j < n ==> s[j].ArgsDelta? && s[j].tool == k && s[j].outputIndex == i
  }

  predicate SaysArgs(e: Event, k: int, i: nat, arguments: string) {
    e.ArgsDone? && e.tool == k && e.outputIndex == i && e.arguments == arguments
  }

  /** Opened, arguments in pieces, all of them said again normalized, closed, under one index. */
  predicate WholeCall(s: seq<Event>, k: int, i: nat, normalize: string -> string) {
    && |s| >= 3 && CallOpen(s, |s| - 2, k, i)
    && SaysArgs(s[|s| - 2], k, i, normalize(Deltas(s, |s|))) && IsDone(s[|s| - 1], Function(k), i, normalize(Deltas(s, |s|)))
  }

  predicate ItemsBetween(log: seq<Event>, a: nat, b: nat) {
    b <= |log| && forall i :: a <= i < b ==> ItemOf(log[i]).Some?
  }

  function MessageText(log: seq<Event>): string {
    var s := Of(log, Message, |log|);
    Deltas(s, |s|)
  }

  ghost predicate ItemComplete(log: seq<Event>, item: Item, normalize: string -> string) {
    var s := Of(log, item, |log|);
    s == [] || match item
               case Message => WholeMessage(s)
               case Function(k) => s[0].ItemAdded? && WholeCall(s, k, s[0].outputIndex, normalize)
  }

  predicate Completes(e: Event, text: string) {
    e.Completed? && e.outputText == TrimSpace(text)
  }

  /** response.created, then whole items in any interleaving, then response.completed with the text
      of the message, then the done marker. */
  ghost predicate WellFormed(log: seq<Event>, normalize: string -> string) {
    && |log| >= 3 && log[0] == Created && log[|log| - 1] == DoneMarker
    && Completes(log[|log| - 2], MessageText(log))
    && ItemsBetween(log, 1, |log| - 2)
    && forall item: Item :: ItemComplete(log, item, normalize)
  }

  // ---- what the reader knows -------------------------------------------------------------------

  predicate MessageSeen(s: seq<Event>, m: Monitor) {
    && m.text == Deltas(s, |s|)
    && match m.message
       case NoMessage => s == []
       case Added => |s| == 1 && IsAdded(s[0], Message, MESSAGE_INDEX)
       case PartOpen => MessageOpen(s, |s|)
       case TextSaid => |s| >= 1 && MessageOpen(s, |s| - 1) && s[|s| - 1] == TextDone(MESSAGE_INDEX, m.text)
       case PartClosed =>
         && |s| >= 2 && MessageOpen(s, |s| - 2) && s[|s| - 2] == TextDone(MESSAGE_INDEX, m.text)
         && s[|s| - 1] == PartDone(MESSAGE_INDEX, m.text)
       case MessageClosed => WholeMessage(s)
  }

  predicate CallSeen(s: seq<Event>, k: int, view: CallView, normalize: string -> string) {
    && view.arguments == Deltas(s, |s|)
    && match view.status
       case Open => CallOpen(s, |s|, k, view.outputIndex)
       case ArgsSaid =>
         && |s| >= 1 && CallOpen(s, |s| - 1, k, view.outputIndex)
         && SaysArgs(s[|s| - 1], k, view.outputIndex, normalize(view.arguments))
       case CallClosed => WholeCall(s, k, view.outputIndex, normalize)
  }

  ghost predicate CallsSeen(log: seq<Event>, n: nat, m: Monitor, normalize: string -> string)
    requires n <= |log|
  {
    forall k :: CallKnown(Of(log, Function(k), n), k, m, normalize)
  }

  predicate CallKnown(s: seq<Event>, k: int, m: Monitor, normalize: string -> string) {
    if k in m.calls then CallSeen(s, k, m.calls[k], normalize) else s == []
  }

  predicate Settled(m: Monitor) {
    (m.message.NoMessage? || m.message.MessageClosed?) && forall k :: k in m.calls ==> m.calls[k].status.CallClosed?
  }

  predicate PhaseFits(log: seq<Event>, n: nat, m: Monitor)
    requires n <= |log|
  {
    && (n > 0 ==> log[0] == Created)
    && match m.phase
       case Waiting => n == 0
       case Streaming => n > 0 && ItemsBetween(log, 1, n)
       case Finishing => n > 1 && ItemsBetween(log, 1, n - 1) && Settled(m) && Completes(log[n - 1], m.text)
       case Over => n > 2 && ItemsBetween(log, 1, n - 2) && Settled(m) && Completes(log[n - 2], m.text) && log[n - 1] == DoneMarker
  }

  ghost predicate Means(log: seq<Event>, n: nat, m: Monitor, normalize: string -> string)
    requires n <= |log|
  {
    PhaseFits(log, n, m) && MessageSeen(Of(log, Message, n), m) && CallsSeen(log, n, m, normalize)
  }

  // ---- accepted, then well formed --------------------------------------------------------------

  lemma {:induction false} DeltasPrefix(s: seq<Event>, t: seq<Event>, n: nat)
    requires n <= |s| && s <= t
    ensures Deltas(s, n) == Deltas(t, n)
  {
    if n > 0 {
      DeltasPrefix(s, t, n - 1);
    }
  }

  lemma DeltasMore(s: seq<Event>, e: Event)
    ensures Deltas(s + [e], |s| + 1) == Deltas(s, |s|) + DeltaOf(e)
    ensures DeltaOf(e) == "" ==> Deltas(s + [e], |s| + 1) == Deltas(s, |s|)
    ensures s == [] ==> Deltas(s, |s|) == ""
  {
    DeltasPrefix(s, s + [e], |s|);
  }

  lemma MessageStep(s: seq<Event>, m: Monitor, e: Event)
    requires MessageSeen(s, m) && AboutMessage(e) && AdvanceMessage(m, e).Some?
    ensures MessageSeen(s + [e], AdvanceMessage(m, e).value)
  {
    hide Deltas;
    DeltasMore(s, e);
  }

  lemma CallStep(s: seq<Event>, k: int, m: Monitor, e: Event, normalize: string -> string)
    requires CallKnown(s, k, m, normalize) && ItemOf(e) == Some(Function(k)) && AdvanceCall(m, e, normalize).Some?
    ensures CallKnown(s + [e], k, AdvanceCall(m, e, normalize).value, normalize)
  {
    hide Deltas;
    DeltasMore(s, e);
  }

  lemma OtherCallStays(s: seq<Event>, k: int, m: Monitor, e: Event, normalize: string -> string)
    requires CallKnown(s, k, m, normalize) && !AboutMessage(e) && ItemOf(e) != Some(Function(k))
    requires AdvanceCall(m, e, normalize).Some?
    ensures CallKnown(s, k, AdvanceCall(m, e, normalize).value, normalize)
  {
    hide CallSeen;
  }

  /** One more event outside every item. */
  lemma FrameStep(log: seq<Event>, n: nat, m: Monitor, m': Monitor, normalize: string -> string)
    requires n < |log| && ItemOf(log[n]).None? && m' == m.(phase := m'.phase)
    requires MessageSeen(Of(log, Message, n), m) && CallsSeen(log, n, m, normalize)
    ensures MessageSeen(Of(log, Message, n + 1), m') && CallsSeen(log, n + 1, m', normalize)
  {
    hide CallSeen;
    forall k ensures CallKnown(Of(log, Function(k), n + 1), k, m', normalize) {
      assert CallKnown(Of(log, Function(k), n), k, m, normalize);
    }
  }

  lemma ItemStep(log: seq<Event>, n: nat, m: Monitor, normalize: string -> string)
    requires n < |log| && ItemOf(log[n]).Some? && m.phase.Streaming? && Advance(m, log[n], normalize).Some?
    requires MessageSeen(Of(log, Message, n), m) && CallsSeen(log, n, m, normalize)
    ensures var m' := Advance(m, log[n], normalize).value;
            m'.phase.Streaming? && MessageSeen(Of(log, Message, n + 1), m') && CallsSeen(log, n + 1, m', normalize)
  {
    hide MessageSeen, CallSeen;
    var e, m' := log[n], Advance(m, log[n], normalize).value;
    if AboutMessage(e) {
      MessageStep(Of(log, Message, n), m, e);
      forall k ensures CallKnown(Of(log, Function(k), n + 1), k, m', normalize) {
        assert CallKnown(Of(log, Function(k), n), k, m, normalize);
      }
    } else {
      MessageElsewhere(Of(log, Message, n), m, e, normalize);
      hide CallKnown, AdvanceCall;
      forall k ensures CallKnown(Of(log, Function(k), n + 1), k, m', normalize) {
        assert CallKnown(Of(log, Function(k), n), k, m, normalize);
        if ItemOf(e) == Some(Function(k)) {
          CallStep(Of(log, Function(k), n), k, m, e, normalize);
        } else {
          OtherCallStays(Of(log, Function(k), n), k, m, e, normalize);
        }
      }
    }
  }

  lemma MessageElsewhere(s: seq<Event>, m: Monitor, e: Event, normalize: string -> string)
    requires MessageSeen(s, m) && AdvanceCall(m, e, normalize).Some?
    ensures MessageSeen(s, AdvanceCall(m, e, normalize).value)
    ensures AdvanceCall(m, e, normalize).value.phase == m.phase
  {}

  lemma MeansStep(log: seq<Event>, n: nat, m: Monitor, normalize: string -> string)
    requires n < |log| && Means(log, n, m, normalize) && Advance(m, log[n], normalize).Some?
    ensures Means(log, n + 1, Advance(m, log[n], normalize).value, normalize)
  {
    hide MessageSeen, CallsSeen, TrimSpace, Of;
    if ItemOf(log[n]).Some? {
      ItemStep(log, n, m, normalize);
      assert n > 0;
    } else {
      FrameStep(log, n, m, Advance(m, log[n], normalize).value, normalize);
    }
  }

  lemma NothingSeen(log: seq<Event>, normalize: string -> string)
    ensures Means(log, 0, NOTHING_READ, normalize)
  {}

  lemma WatchStep(log: seq<Event>, n: nat, normalize: string -> string)
    requires n < |log|
    ensures Watch(log[..n + 1], normalize)
         == if Watch(log[..n], normalize).None? then None else Advance(Watch(log[..n], normalize).value, log[n], normalize)
  {
    assert log[..n + 1] == log[..n] + [log[n]];
    WatchMore(log[..n], log[n], normalize);
  }

  lemma {:induction false} WatchMeans(log: seq<Event>, n: nat, normalize: string -> string)
    requires n <= |log| && Watch(log[..n], normalize).Some?
    ensures Means(log, n, Watch(log[..n], normalize).value, normalize)
  {
    hide Means, Advance;
    if n == 0 {
      NothingSeen(log, normalize);
    } else {
      WatchStep(log, n - 1, normalize);
      WatchMeans(log, n - 1, normalize);
      MeansStep(log, n - 1, Watch(log[..n - 1], normalize).value, normalize);
    }
  }

  lemma SettledIsComplete(log: seq<Event>, m: Monitor, item: Item, normalize: string -> string)
    requires MessageSeen(Of(log, Message, |log|), m) && CallsSeen(log, |log|, m, normalize) && Settled(m)
    ensures ItemComplete(log, item, normalize)
  {
    hide Of, Deltas;
    if item.Function? {
      assert CallKnown(Of(log, item, |log|), item.tool, m, normalize);
    }
  }

  lemma AcceptedIsWellFormed(log: seq<Event>, normalize: string -> string)
    requires Watch(log, normalize).Some? && Watch(log, normalize).value.phase.Over?
    ensures WellFormed(log, normalize)
  {
    assert log[..|log|] == log;
    WatchMeans(log, |log|, normalize);
    hide Watch, Of, TrimSpace, CallsSeen, ItemComplete;
    forall item: Item ensures ItemComplete(log, item, normalize) {
      SettledIsComplete(log, Watch(log, normalize).value, item, normalize);
    }
  }

  // ---- well formed, then accepted --------------------------------------------------------------

  lemma {:induction false} OfGrows(log: seq<Event>, item: Item, n: nat, m: nat)
    requires n <= m <= |log|
    ensures Of(log, item, n) <= Of(log, item, m)
  {
    if n < m {
      OfGrows(log, item, n, m - 1);
    }
  }

  /** The next event of a whole item is one the reader takes. */
  lemma MessageGoesOn(whole: seq<Event>, s: seq<Event>, m: Monitor, e: Event)
    requires WholeMessage(whole) && s + [e] <= whole && MessageSeen(s, m) && AboutMessage(e)
    ensures AdvanceMessage(m, e).Some?
  {
    hide Deltas;
    var n := |whole|;
    assert whole[|s|] == e && s == whole[..|s|];
    DeltasPrefix(s, whole, |s|);
    TailAddsNothing(whole, n - 3, n);
    if |s| >= n - 3 {
      TailAddsNothing(whole, n - 3, |s|);
    }
  }

  lemma {:induction false} TailAddsNothing(s: seq<Event>, a: nat, b: nat)
    requires a <= b <= |s| && forall i :: a <= i < b ==> DeltaOf(s[i]) == ""
    ensures Deltas(s, b) == Deltas(s, a)
  {
    if a < b {
      TailAddsNothing(s, a, b - 1);
    }
  }

  lemma CallGoesOn(whole: seq<Event>, s: seq<Event>, k: int, i: nat, m: Monitor, e: Event, normalize: string -> string)
    requires WholeCall(whole, k, i, normalize) && s + [e] <= whole && CallKnown(s, k, m, normalize)
    ensures AdvanceCall(m, e, normalize).Some?
  {
    hide Deltas;
    var n := |whole|;
    assert whole[|s|] == e && s == whole[..|s|];
    DeltasPrefix(s, whole, |s|);
    TailAddsNothing(whole, n - 2, n);
    if |s| >= n - 2 {
      TailAddsNothing(whole, n - 2, |s|);
    }
  }

  lemma ItemGoesOn(log: seq<Event>, n: nat, m: Monitor, normalize: string -> string)
    requires WellFormed(log, normalize) && 0 < n < |log| - 2 && Means(log, n, m, normalize)
    ensures Advance(m, log[n], normalize).Some?
  {
    hide Deltas, WholeMessage, WholeCall, MessageSeen, AdvanceMessage, AdvanceCall, TrimSpace;
    var e := log[n];
    assert m.phase.Streaming?;
    var item := ItemOf(e).value;
    OfGrows(log, item, n + 1, |log|);
    var s, whole := Of(log, item, n), Of(log, item, |log|);
    assert Of(log, item, n + 1) == s + [e];
    assert ItemComplete(log, item, normalize);
    match item {
      case Message => MessageGoesOn(whole, s, m, e);
      case Function(k) =>
        assert CallKnown(s, k, m, normalize);
        CallGoesOn(whole, s, k, whole[0].outputIndex, m, e, normalize);
    }
  }

  lemma {:induction false} NoMoreOf(log: seq<Event>, item: Item, n: nat, m: nat)
    requires n <= m <= |log| && forall i :: n <= i < m ==> ItemOf(log[i]).None?
    ensures Of(log, item, n) == Of(log, item, m)
  {
    if n < m {
      NoMoreOf(log, item, n, m - 1);
    }
  }

  lemma WholeIsClosed(s: seq<Event>, m: Monitor)
    requires MessageSeen(s, m) && (s == [] || WholeMessage(s))
    ensures m.message.NoMessage? || m.message.MessageClosed?
  {
    hide Deltas;
  }

  lemma WholeCallIsClosed(s: seq<Event>, k: int, i: nat, view: CallView, normalize: string -> string)
    requires CallSeen(s, k, view, normalize) && WholeCall(s, k, i, normalize)
    ensures view.status.CallClosed?
  {
    hide Deltas;
  }

  lemma EndGoesOn(log: seq<Event>, m: Monitor, normalize: string -> string)
    requires WellFormed(log, normalize) && Means(log, |log| - 2, m, normalize)
    ensures Advance(m, log[|log| - 2], normalize).Some?
  {
    hide Deltas, WholeMessage, WholeCall, MessageSeen, CallSeen, TrimSpace, Of;
    var n := |log| - 2;
    assert m.phase.Streaming?;
    NoMoreOf(log, Message, n, |log|);
    assert ItemComplete(log, Message, normalize);
    WholeIsClosed(Of(log, Message, n), m);
    TextSeen(Of(log, Message, n), m);
    forall k | k in m.calls ensures m.calls[k].status.CallClosed? {
      NoMoreOf(log, Function(k), n, |log|);
      assert ItemComplete(log, Function(k), normalize);
      assert CallKnown(Of(log, Function(k), n), k, m, normalize);
      KnownIsSome(Of(log, Function(k), n), k, m.calls[k], normalize);
      WholeCallIsClosed(Of(log, Function(k), n), k, Of(log, Function(k), n)[0].outputIndex, m.calls[k], normalize);
    }
  }

  lemma TextSeen(s: seq<Event>, m: Monitor)
    requires MessageSeen(s, m)
    ensures m.text == Deltas(s, |s|)
  {}

  lemma KnownIsSome(s: seq<Event>, k: int, view: CallView, normalize: string -> string)
    requires CallSeen(s, k, view, normalize)
    ensures s != []
  {}

  lemma {:induction false} WellFormedIsTaken(log: seq<Event>, n: nat, normalize: string -> string)
    requires WellFormed(log, normalize) && n <= |log|
    ensures Watch(log[..n], normalize).Some?
  {
    hide WellFormed, Means, Advance, Watch;
    if n == 0 {
      NothingWatched(normalize);
      assert log[..0] == [];
    } else {
      WellFormedIsTaken(log, n - 1, normalize);
      WatchMeans(log, n - 1, normalize);
      WatchStep(log, n - 1, normalize);
      NextIsTaken(log, n - 1, Watch(log[..n - 1], normalize).value, normalize);
    }
  }

  lemma NothingWatched(normalize: string -> string)
    ensures Watch([], normalize).Some?
  {}

  lemma NextIsTaken(log: seq<Event>, n: nat, m: Monitor, normalize: string -> string)
    requires WellFormed(log, normalize) && n < |log| && Means(log, n, m, normalize)
    ensures Advance(m, log[n], normalize).Some?
  {
    hide MessageSeen, CallsSeen, TrimSpace, ItemComplete;
    if n == 0 || n == |log| - 1 {
    } else if n == |log| - 2 {
      EndGoesOn(log, m, normalize);
    } else {
      ItemGoesOn(log, n, m, normalize);
    }
  }

  lemma WellFormedIsOver(log: seq<Event>, m: Monitor, normalize: string -> string)
    requires WellFormed(log, normalize) && Means(log, |log|, m, normalize)
    ensures m.phase.Over?
  {
    hide MessageSeen, CallsSeen, TrimSpace, ItemComplete;
  }

  /** The reader accepts a log to its end exactly if it is well formed in the plain sense. */
  lemma AcceptedIffWellFormed(log: seq<Event>, normalize: string -> string)
    ensures Watch(log, normalize).Some? && Watch(log, normalize).value.phase.Over? <==> WellFormed(log, normalize)
  {
    hide *;
    if WellFormed(log, normalize) {
      WellFormedIsTaken(log, |log|, normalize);
      assert log[..|log|] == log;
      WatchMeans(log, |log|, normalize);
      WellFormedIsOver(log, Watch(log, normalize).value, normalize);
    } else if Watch(log, normalize).Some? && Watch(log, normalize).value.phase.Over? {
      AcceptedIsWellFormed(log, normalize);
    }
  }
}

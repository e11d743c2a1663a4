/** drainOpenAIChunks as two processes: a reader goroutine that owns a pooled buffer, and the main
    loop, joined by an unbuffered channel, an abort channel and the body's Close. */
module DrainProtocol {
  type Bytes = seq<bv8>

  datatype Err = NoErr | EndOfStream | ReadFailed

  datatype Result = Eof | UpstreamErr | IdleTimeout | ContextCanceled

  /** Where the reader goroutine is; its deferred calls put the buffer back, then signal. */
  datatype ReaderAt = Starting | InRead | Offering(data: Bytes, err: Err) | Leaving | BufferBack | Gone

  /** Where the main loop is; on the way out it closes the abort channel, closes the body, and waits. */
  datatype MainAt =
    | Selecting
    | Got(data: Bytes, err: Err)
    | Deferred(result: Result)
    | Aborting(result: Result)
    | Waiting(result: Result)
    | Returned(result: Result)

  /** `buffersOut` counts buffers taken from the pool; `delivered` is what onChunk has been given;
      `dropped` is what the reader held when it saw the abort. */
  datatype State = State(
    reader: ReaderAt,
    main: MainAt,
    abortClosed: bool,
    bodyClosed: bool,
    buffersOut: int,
    delivered: Bytes,
    sawAbort: bool,
    dropped: Bytes)

  const START := State(Starting, Selecting, false, false, 0, [], false, [])

  datatype Step =
    | GetBuffer
    | ReadReturns(data: Bytes, err: Err)
    | HandOff
    | SeeAbort
    | PutBuffer
    | SignalDone
    | Handle(goOn: bool)
    | IdleFires
    | ContextEnds
    | CloseAbort
    | CloseBody
    | WaitOver

  predicate Enabled(s: State, step: Step) {
    match step
    case GetBuffer => s.reader.Starting?
    case ReadReturns(_, _) => s.reader.InRead?
    case HandOff => s.reader.Offering? && s.main.Selecting?
    case SeeAbort => s.reader.Offering? && s.abortClosed
    case PutBuffer => s.reader.Leaving?
    case SignalDone => s.reader.BufferBack?
    case Handle(_) => s.main.Got?
    case IdleFires => s.main.Selecting?
    case ContextEnds => s.main.Selecting?
    case CloseAbort => s.main.Deferred?
    case CloseBody => s.main.Aborting?
    case WaitOver => s.main.Waiting? && s.reader.Gone?
  }

  /** The main loop's handling of one received result. */
  function Handled(s: State, goOn: bool): State
    requires s.main.Got?
  {
    var data, err := s.main.data, s.main.err;
    var s1 := if |data| > 0 then s.(delivered := s.delivered + data) else s;
    if |data| > 0 && !goOn then s1.(main := Deferred(ContextCanceled))
    else
      match err
      case NoErr => s1.(main := Selecting)
      case EndOfStream => s1.(main := Deferred(Eof))
      case ReadFailed => s1.(main := Deferred(UpstreamErr))
  }

  /** One atomic step; `hasCloser` says whether there is a body to close. */
  function Do(s: State, step: Step, hasCloser: bool): State
    requires Enabled(s, step)
  {
    match step
    case GetBuffer => s.(reader := InRead, buffersOut := s.buffersOut + 1)
    case ReadReturns(data, err) => s.(reader := Offering(data, err))
    case HandOff =>
      s.(main := Got(s.reader.data, s.reader.err), reader := if s.reader.err.NoErr? then InRead else Leaving)
    case SeeAbort => s.(reader := Leaving, sawAbort := true, dropped := s.reader.data)
    case PutBuffer => s.(reader := BufferBack, buffersOut := s.buffersOut - 1)
    case SignalDone => s.(reader := Gone)
    case Handle(goOn) => Handled(s, goOn)
    case IdleFires => s.(main := Deferred(IdleTimeout))
    case ContextEnds => s.(main := Deferred(ContextCanceled))
    case CloseAbort => s.(main := Aborting(s.main.result), abortClosed := true)
    case CloseBody => s.(main := Waiting(s.main.result), bodyClosed := hasCloser)
    case WaitOver => s.(main := Returned(s.main.result))
  }

  // ---- runs ------------------------------------------------------------------------------------

  /** The state after the first n steps, if each was possible in its turn. */
  function After(steps: seq<Step>, n: nat, hasCloser: bool): (s: State)
    requires n <= |steps| && Possible(steps, n, hasCloser)
    decreases n, 1
  {
    if n == 0 then START else Do(After(steps, n - 1, hasCloser), steps[n - 1], hasCloser)
  }

  predicate Possible(steps: seq<Step>, n: nat, hasCloser: bool)
    requires n <= |steps|
    decreases n, 0
  {
    n == 0 || (Possible(steps, n - 1, hasCloser) && Enabled(After(steps, n - 1, hasCloser), steps[n - 1]))
  }

  function BytesOf(step: Step): Bytes {
    if step.ReadReturns? then step.data else []
  }

  /** Every byte the upstream reads have returned. */
  function BytesRead(steps: seq<Step>, n: nat): Bytes
    requires n <= |steps|
  {
    if n == 0 then [] else BytesRead(steps, n - 1) + BytesOf(steps[n - 1])
  }

  /** What the last read returned. */
  datatype Reading = Reading(data: Bytes, err: Err)

  function Later(last: Reading, step: Step): Reading {
    if step.ReadReturns? then Reading(step.data, step.err) else last
  }

  function LastRead(steps: seq<Step>, n: nat): Reading
    requires n <= |steps|
  {
    if n == 0 then Reading([], NoErr) else Later(LastRead(steps, n - 1), steps[n - 1])
  }

  // ---- what every step keeps -------------------------------------------------------------------

  predicate ReaderOut(s: State) {
    s.reader.Leaving? || s.reader.BufferBack? || s.reader.Gone?
  }

  predicate MainOut(s: State) {
    !s.main.Selecting? && !s.main.Got?
  }

  function InMain(s: State): Bytes {
    if s.main.Got? then s.main.data else []
  }

  function InReader(s: State): Bytes {
    if s.reader.Offering? then s.reader.data else []
  }

  /** No byte is lost or reordered on the way. */
  ghost predicate Flow(s: State, read: Bytes) {
    read == s.delivered + (InMain(s) + (InReader(s) + s.dropped))
  }

  /** The channels and the buffer follow the two program counters. */
  ghost predicate Control(s: State, hasCloser: bool) {
    && (s.abortClosed <==> s.main.Aborting? || s.main.Waiting? || s.main.Returned?)
    && (s.bodyClosed <==> hasCloser && (s.main.Waiting? || s.main.Returned?))
    && s.buffersOut == (if s.reader.InRead? || s.reader.Offering? || s.reader.Leaving? then 1 else 0)
    && (s.main.Returned? ==> s.reader.Gone?)
    && (s.sawAbort ==> s.abortClosed && ReaderOut(s))
    && (!s.sawAbort ==> s.dropped == [])
  }

  /** Errors travel from the last read to the result. */
  ghost predicate Verdict(s: State, last: Reading) {
    && (s.reader.Offering? ==> last == Reading(s.reader.data, s.reader.err))
    && (s.sawAbort ==> s.dropped == last.data)
    && (s.main.Got? && !s.main.err.NoErr? ==> ReaderOut(s) && s.main.err == last.err)
    && (ReaderOut(s) && !s.sawAbort ==> MainOut(s) || (s.main.Got? && !s.main.err.NoErr?))
    && (MainOut(s) && (s.main.result.Eof? || s.main.result.UpstreamErr?) ==>
          ReaderOut(s) && !s.sawAbort && last.err == (if s.main.result.Eof? then EndOfStream else ReadFailed))
  }

  lemma FlowStep(s: State, step: Step, hasCloser: bool, read: Bytes)
    requires Flow(s, read) && Control(s, hasCloser) && Enabled(s, step)
    ensures Flow(Do(s, step, hasCloser), read + BytesOf(step))
  {
    assert read + [] == read;
    match step {
      case ReadReturns(data, _) => Regroup(s.delivered, InMain(s), data);
      case SeeAbort => assert InReader(s) + [] == [] + InReader(s);
      case HandOff => assert [] + (InReader(s) + s.dropped) == InReader(s) + ([] + s.dropped);
      case Handle(_) => Regroup2(s.delivered, InMain(s), InReader(s) + s.dropped);
      case _ =>
    }
  }

  lemma Regroup(a: Bytes, b: Bytes, c: Bytes)
    ensures a + (b + ([] + [])) + c == a + (b + (c + []))
  {}

  lemma Regroup2(a: Bytes, b: Bytes, c: Bytes)
    ensures a + (b + c) == a + b + ([] + c)
    ensures b == [] ==> a + b == a
  {}

  lemma ControlStep(s: State, step: Step, hasCloser: bool)
    requires Control(s, hasCloser) && Enabled(s, step)
    ensures Control(Do(s, step, hasCloser), hasCloser)
  {}

  lemma VerdictStep(s: State, step: Step, hasCloser: bool, last: Reading)
    requires Verdict(s, last) && Control(s, hasCloser) && Enabled(s, step)
    ensures Verdict(Do(s, step, hasCloser), Later(last, step))
  {}

  /** In every interleaving. */
  lemma {:induction false} Kept(steps: seq<Step>, n: nat, hasCloser: bool)
    requires n <= |steps| && Possible(steps, n, hasCloser)
    ensures Flow(After(steps, n, hasCloser), BytesRead(steps, n))
    ensures Control(After(steps, n, hasCloser), hasCloser)
    ensures Verdict(After(steps, n, hasCloser), LastRead(steps, n))
  {
    if n > 0 {
      hide Flow, Verdict, Control, Do, Enabled, Later, BytesOf;
      Kept(steps, n - 1, hasCloser);
      var s := After(steps, n - 1, hasCloser);
      FlowStep(s, steps[n - 1], hasCloser, BytesRead(steps, n - 1));
      VerdictStep(s, steps[n - 1], hasCloser, LastRead(steps, n - 1));
      ControlStep(s, steps[n - 1], hasCloser);
    }
  }

  // ---- what callers rely on --------------------------------------------------------------------

  /** What onChunk has been given is always a prefix of what has been read. */
  lemma DeliveredIsPrefix(steps: seq<Step>, n: nat, hasCloser: bool)
    requires n <= |steps| && Possible(steps, n, hasCloser)
    ensures After(steps, n, hasCloser).delivered <= BytesRead(steps, n)
  {
    hide After, Possible, BytesRead, InMain, InReader, Control, Verdict;
    Kept(steps, n, hasCloser);
  }

  /** When the call returns, the reader is gone and its buffer back in the pool. The end of the
      stream, or a read error, is reported only when the last read met it, and then every byte read
      has been delivered, those that came with the end included. In the other cases at most the
      bytes of the last read are missing. */
  lemma ReturnMeans(steps: seq<Step>, n: nat, hasCloser: bool)
    requires n <= |steps| && Possible(steps, n, hasCloser) && After(steps, n, hasCloser).main.Returned?
    ensures var s := After(steps, n, hasCloser);
            && s.reader.Gone? && s.buffersOut == 0
            && (s.main.result.Eof? ==> LastRead(steps, n).err == EndOfStream && s.delivered == BytesRead(steps, n))
            && (s.main.result.UpstreamErr? ==> LastRead(steps, n).err == ReadFailed && s.delivered == BytesRead(steps, n))
            && (s.delivered == BytesRead(steps, n) || s.delivered + LastRead(steps, n).data == BytesRead(steps, n))
  {
    hide After, Possible, BytesRead, LastRead;
    Kept(steps, n, hasCloser);
    var s := After(steps, n, hasCloser);
    assert s.delivered + ([] + ([] + s.dropped)) == s.delivered + s.dropped;
    assert s.delivered + [] == s.delivered;
  }

  predicate IdleFired(steps: seq<Step>, n: nat)
    requires n <= |steps|
  {
    n > 0 && (IdleFired(steps, n - 1) || steps[n - 1].IdleFires?)
  }

  /** onChunk is given some bytes and says stop. */
  predicate Refuses(s: State, step: Step) {
    step == Handle(false) && s.main.Got? && s.main.data != []
  }

  /** The context ended while main was waiting, or onChunk said stop. */
  predicate Cancelled(steps: seq<Step>, n: nat, hasCloser: bool)
    requires n <= |steps| && Possible(steps, n, hasCloser)
  {
    n > 0 && (Cancelled(steps, n - 1, hasCloser) || steps[n - 1].ContextEnds? || Refuses(After(steps, n - 1, hasCloser), steps[n - 1]))
  }

  lemma OutcomeStep(s: State, step: Step, hasCloser: bool)
    requires Enabled(s, step)
    ensures var u := Do(s, step, hasCloser);
            && (MainOut(s) ==> MainOut(u) && u.main.result == s.main.result && !step.IdleFires? && !step.ContextEnds? && !Refuses(s, step))
            && (!MainOut(s) && MainOut(u) ==>
                  && (u.main.result.IdleTimeout? <==> step.IdleFires?)
                  && (u.main.result.ContextCanceled? <==> step.ContextEnds? || Refuses(s, step)))
            && (!MainOut(u) ==> !step.IdleFires? && !step.ContextEnds? && !Refuses(s, step))
  {}

  /** A timeout is reported exactly when the idle timer fired, a cancellation exactly when the context
      ended or onChunk said stop; until main leaves, none of these has happened. */
  lemma {:induction false} ResultSays(steps: seq<Step>, n: nat, hasCloser: bool)
    requires n <= |steps| && Possible(steps, n, hasCloser)
    ensures var s := After(steps, n, hasCloser);
            if MainOut(s) then
              (s.main.result.IdleTimeout? <==> IdleFired(steps, n)) && (s.main.result.ContextCanceled? <==> Cancelled(steps, n, hasCloser))
            else !IdleFired(steps, n) && !Cancelled(steps, n, hasCloser)
  {
    hide Do, Enabled, MainOut, Refuses;
    if n == 0 {
      assert !MainOut(START) by { StartIsIn(); }
    } else {
      ResultSays(steps, n - 1, hasCloser);
      OutcomeStep(After(steps, n - 1, hasCloser), steps[n - 1], hasCloser);
    }
  }

  lemma StartIsIn()
    ensures !MainOut(START)
  {}

  // ---- progress --------------------------------------------------------------------------------

  /** The next step that does not wait for the upstream, if there is one. */
  function OwnStep(s: State): Step {
    match s.main
    case Selecting => if s.reader.Offering? then HandOff else IdleFires
    case Got(_, _) => Handle(true)
    case Deferred(_) => CloseAbort
    case Aborting(_) => CloseBody
    case _ =>
      match s.reader
      case Starting => GetBuffer
      case Offering(_, _) => SeeAbort
      case Leaving => PutBuffer
      case BufferBack => SignalDone
      case _ => WaitOver
  }

  /** Until the call returns, some step other than a Read returning is always possible, except in
      one case: main is waiting for a reader blocked in Read. */
  lemma NeverStuck(steps: seq<Step>, n: nat, hasCloser: bool)
    requires n <= |steps| && Possible(steps, n, hasCloser) && !After(steps, n, hasCloser).main.Returned?
    ensures var s := After(steps, n, hasCloser);
            && ((exists step: Step :: !step.ReadReturns? && Enabled(s, step)) <==> !(s.main.Waiting? && s.reader.InRead?))
            && (s.main.Waiting? && s.reader.InRead? ==> s.abortClosed && (s.bodyClosed <==> hasCloser))
  {
    hide After, Possible, BytesRead, LastRead, Flow, Verdict;
    Kept(steps, n, hasCloser);
    var s := After(steps, n, hasCloser);
    if !(s.main.Waiting? && s.reader.InRead?) {
      assert Enabled(s, OwnStep(s)) && !OwnStep(s).ReadReturns?;
    }
  }

  /** How many steps are left once main is on its way out. */
  function StepsLeft(s: State): nat {
    (match s.reader
     case Starting => 5
     case InRead => 4
     case Offering(_, _) => 3
     case Leaving => 2
     case BufferBack => 1
     case Gone => 0)
    + match s.main
      case Waiting(_) => 1
      case Aborting(_) => 2
      case Deferred(_) => 3
      case Returned(_) => 0
      case _ => 4
  }

  /** On the way out every step brings the return closer, so at most eight remain; nothing happens
      after it. */
  lemma EndsSoon(s: State, step: Step, hasCloser: bool)
    requires MainOut(s) && Enabled(s, step)
    requires s.main.Returned? ==> s.reader.Gone?
    ensures MainOut(Do(s, step, hasCloser)) && StepsLeft(Do(s, step, hasCloser)) < StepsLeft(s) <= 8
    ensures !s.main.Returned?
  {}

  lemma LeftIsSmall(s: State)
    requires MainOut(s)
    ensures StepsLeft(s) <= 8
  {}

  /** In every run, at most eight steps follow the moment main starts on its way out, whatever the
      reader was doing then. */
  lemma {:induction false} ExitIsBounded(steps: seq<Step>, n: nat, m: nat, hasCloser: bool)
    requires n <= m <= |steps| && Possible(steps, m, hasCloser)
    requires Possible(steps, n, hasCloser) && MainOut(After(steps, n, hasCloser))
    ensures MainOut(After(steps, m, hasCloser))
    ensures m - n + StepsLeft(After(steps, m, hasCloser)) <= StepsLeft(After(steps, n, hasCloser)) <= 8
  {
    if n == m {
      LeftIsSmall(After(steps, n, hasCloser));
    } else {
      ExitIsBounded(steps, n, m - 1, hasCloser);
      Kept(steps, m - 1, hasCloser);
      hide Do, Enabled, StepsLeft, Flow, Verdict, BytesRead, LastRead, MainOut;
      EndsSoon(After(steps, m - 1, hasCloser), steps[m - 1], hasCloser);
    }
  }

  // ---- the call returns ------------------------------------------------------------------------

  /** How many reads have returned. */
  function Reads(steps: seq<Step>, n: nat): nat
    requires n <= |steps|
  {
    if n == 0 then 0 else Reads(steps, n - 1) + if steps[n - 1].ReadReturns? then 1 else 0
  }

  /** The steps that can still come before another read has to return. */
  function Reserve(s: State): nat {
    if MainOut(s) then StepsLeft(s)
    else
      (match s.reader
       case Starting => 9
       case InRead => 8
       case Offering(_, _) => 10
       case _ => StepsLeft(s)) + if s.main.Got? then 1 else 0
  }

  /** Every step uses up the reserve, except that a read brings three more. */
  lemma ReserveStep(s: State, step: Step, hasCloser: bool)
    requires Enabled(s, step)
    requires s.main.Returned? ==> s.reader.Gone?
    ensures 1 + Reserve(Do(s, step, hasCloser)) <= Reserve(s) + if step.ReadReturns? then 3 else 0
  {}

  /** No run is longer than three steps for each read that has returned, and nine more. */
  lemma {:induction false} ReadsBoundSteps(steps: seq<Step>, n: nat, hasCloser: bool)
    requires n <= |steps| && Possible(steps, n, hasCloser)
    ensures n + Reserve(After(steps, n, hasCloser)) <= 3 * Reads(steps, n) + 9
  {
    if n > 0 {
      hide Do, Enabled, Reserve, Flow, Verdict, BytesRead, LastRead;
      ReadsBoundSteps(steps, n - 1, hasCloser);
      Kept(steps, n - 1, hasCloser);
      ReserveStep(After(steps, n - 1, hasCloser), steps[n - 1], hasCloser);
    }
  }

  /** Nothing more will happen of itself: all that is left is a Read of a body still open. */
  ghost predicate Halted(s: State) {
    forall step: Step :: Enabled(s, step) ==> step.ReadReturns? && !s.bodyClosed
  }

  /** Every run that has come to a halt has returned, if there is a body to close; without one it may
      also be blocked in a Read for ever. A run that has not halted goes on, but not longer than three
      steps a read and nine more, and eight once main is on its way out. */
  lemma CallReturns(steps: seq<Step>, hasCloser: bool)
    requires Possible(steps, |steps|, hasCloser)
    ensures var s := After(steps, |steps|, hasCloser);
            Halted(s) <==> s.main.Returned? || (!hasCloser && s.main.Waiting? && s.reader.InRead?)
    ensures |steps| <= 3 * Reads(steps, |steps|) + 9
    ensures forall n :: 0 <= n <= |steps| && LeavesAt(steps, n, hasCloser) ==> |steps| <= n + 8
  {
    hide After, Possible, BytesRead, LastRead, Flow, Verdict, Reads, Reserve, MainOut;
    var s := After(steps, |steps|, hasCloser);
    Kept(steps, |steps|, hasCloser);
    ReadsBoundSteps(steps, |steps|, hasCloser);
    HaltedMeans(s, hasCloser);
    forall n | 0 <= n <= |steps| && LeavesAt(steps, n, hasCloser) ensures |steps| <= n + 8 {
      ExitIsBounded(steps, n, |steps|, hasCloser);
    }
  }

  /** After n steps main is on its way out. */
  ghost predicate LeavesAt(steps: seq<Step>, n: nat, hasCloser: bool)
    requires n <= |steps|
  {
    Possible(steps, n, hasCloser) && MainOut(After(steps, n, hasCloser))
  }

  lemma HaltedMeans(s: State, hasCloser: bool)
    requires Control(s, hasCloser)
    ensures Halted(s) <==> s.main.Returned? || (!hasCloser && s.main.Waiting? && s.reader.InRead?)
  {
    if s.main.Waiting? && s.reader.InRead? {
      assert Enabled(s, ReadReturns([], NoErr));
    } else if !s.main.Returned? {
      assert Enabled(s, OwnStep(s)) && !OwnStep(s).ReadReturns?;
    }
  }

  /** Without a body to close, a Read that never returns blocks the call for ever: the idle timeout
      has fired, the abort is signalled, and no other step is possible. */
  lemma BlockedWithoutCloser()
    ensures var steps := [GetBuffer, IdleFires, CloseAbort, CloseBody];
            && Possible(steps, 4, false)
            && var s := After(steps, 4, false);
            s.main == Waiting(IdleTimeout) && !s.bodyClosed && forall step: Step :: Enabled(s, step) ==> step.ReadReturns?
  {
    var steps := [GetBuffer, IdleFires, CloseAbort, CloseBody];
    assert Possible(steps, 1, false) && After(steps, 1, false) == START.(reader := InRead, buffersOut := 1);
    assert Possible(steps, 2, false) && After(steps, 2, false).main == Deferred(IdleTimeout);
    assert Possible(steps, 3, false) && After(steps, 3, false).main == Aborting(IdleTimeout);
  }
}

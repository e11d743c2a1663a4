/** The relay's line loop over a server-sent event body, and the printing it undoes (a subset of
    section 9.2.6 of the HTML Living Standard). */
module SseRelay {
  import opened Optional
  import opened Text
  import opened Chunks

  /** What the translator is given. */
  datatype Handed = Consumed(chunk: Chunk) | FinishCalled

  /** How the body stops: at its end, with a read error, or because nothing came in time or the
      request was cancelled. */
  datatype Ending = Eof | Broken | Quiet

  datatype Relay = Relay(dataLines: seq<string>, handed: seq<Handed>, failed: bool)

  const START := Relay([], [], false)

  type Decoder = string -> Option<Chunk>

  // ---- the loop, as functions ------------------------------------------------------------------

  function Join(lines: seq<string>, sep: string): string {
    if lines == [] then "" else if |lines| == 1 then lines[0]
    else Join(lines[..|lines| - 1], sep) + sep + lines[|lines| - 1]
  }

  /** Hands the collected data lines over as one payload. */
  function Flush(r: Relay, decode: Decoder): Relay {
    var payload := TrimSpace(Join(r.dataLines, "\n"));
    var cleared := r.(dataLines := []);
    if payload == "" then cleared
    else if payload == "[DONE]" then cleared.(handed := r.handed + [FinishCalled])
    else if decode(payload).None? then cleared.(failed := true)
    else cleared.(handed := r.handed + [Consumed(decode(payload).value)])
  }

  /** strings.TrimRight with the cutset "\r\n". */
  function TrimEol(line: string): (s: string)
    ensures s <= line
  {
    if line != "" && (line[|line| - 1] == '\r' || line[|line| - 1] == '\n') then TrimEol(line[..|line| - 1]) else line
  }

  function Line(r: Relay, line: string, decode: Decoder): Relay {
    var trimmed := TrimEol(line);
    if trimmed == "" then Flush(r, decode)
    else if "data:" <= trimmed then r.(dataLines := r.dataLines + [TrimSpace(trimmed[5..])])
    else r
  }

  /** The length of the first line of the body, with its newline if it has one. */
  function LineEnd(body: string): (e: nat)
    ensures e <= |body| && (body != "" ==> e > 0)
  {
    if body == "" then 0 else if body[0] == '\n' then 1 else 1 + LineEnd(body[1..])
  }

  predicate Complete(line: string) {
    line != "" && line[|line| - 1] == '\n'
  }

  /** Reads lines until the body stops. A line cut short is still taken at the end of the body or at
      a read error, but not when the wait is given up. */
  function Drive(body: string, how: Ending, r: Relay, decode: Decoder): Relay
    decreases |body|
  {
    var line := body[..LineEnd(body)];
    if Complete(line) then
      var next := Line(r, line, decode);
      if next.failed then next else Drive(body[|line|..], how, next, decode)
    else if line == "" || how.Quiet? then r
    else Line(r, line, decode)
  }

  /** The last flush, whose error only counts at the end of the body, and the closing Finish. */
  function Conclude(r: Relay, how: Ending, decode: Decoder): Relay {
    if r.failed then r
    else
      var flushed := Flush(r, decode);
      if how.Eof? && flushed.failed then flushed
      else flushed.(handed := flushed.handed + [FinishCalled], failed := false)
  }

  function Relayed(body: string, how: Ending, decode: Decoder): Relay {
    Conclude(Drive(body, how, START, decode), how, decode)
  }

  // ---- the loop itself -------------------------------------------------------------------------

  class StreamRelay {
    const decode: Decoder
    var dataLines: seq<string>
    var handed: seq<Handed>
    var failed: bool

    function Now(): Relay
      reads this
    {
      Relay(dataLines, handed, failed)
    }

    constructor (decode: Decoder)
      ensures Now() == START && this.decode == decode
    {
      this.decode, dataLines, handed, failed := decode, [], [], false;
    }

    method FlushData() returns (ok: bool)
      requires !failed
      modifies this
      ensures Now() == Flush(old(Now()), decode) && ok == !failed
    {
      if |dataLines| == 0 {
        return true;
      }
      var payload := TrimSpace(Join(dataLines, "\n"));
      dataLines := [];
      if payload == "" {
        return true;
      }
      if payload == "[DONE]" {
        handed := handed + [FinishCalled];
        return true;
      }
      var chunk := decode(payload);
      if chunk.None? {
        failed := true;
        return false;
      }
      handed := handed + [Consumed(chunk.value)];
      return true;
    }

    method TakeLine(line: string) returns (ok: bool)
      requires !failed
      modifies this
      ensures Now() == Line(old(Now()), line, decode) && ok == !failed
    {
      hide Flush;
      var trimmed := TrimEol(line);
      if trimmed == "" {
        ok := FlushData();
        return;
      }
      if "data:" <= trimmed {
        dataLines := dataLines + [TrimSpace(trimmed[5..])];
      }
      ok := true;
    }

    /** relayOpenAIStream, from a fresh translator. */
    method Run(body: string, how: Ending) returns (ok: bool)
      requires Now() == START
      modifies this
      ensures Now() == Relayed(body, how, decode) && ok == !failed
    {
      hide Line, Flush;
      var rest := body;
      while true
        invariant !failed
        invariant Drive(body, how, START, decode) == Drive(rest, how, Now(), decode)
        decreases |rest|
      {
        var line := rest[..LineEnd(rest)];
        if !Complete(line) && how.Quiet? {
          break;
        }
        if line != "" {
          ok := TakeLine(line);
          if !ok {
            return;
          }
        }
        rest := rest[|line|..];
        if !Complete(line) {
          break;
        }
      }
      ok := FlushData();
      if how.Eof? && !ok {
        return;
      }
      handed, failed, ok := handed + [FinishCalled], false, true;
    }
  }

  // ---- printing --------------------------------------------------------------------------------

  /** What the emitters write: a payload, with or without an event line before it, or a comment. */
  datatype Frame = Data(event: Option<string>, payload: string) | Comment(text: string)

  /** The part of a data frame that comes before its data line. */
  function EventLine(event: Option<string>): string {
    if event.Some? then "event: " + event.value + "\n" else ""
  }

  function DataField(payload: string): string {
    "data: " + payload
  }

  function Printed(f: Frame): string {
    match f
    case Data(event, payload) => EventLine(event) + DataField(payload) + "\n\n"
    case Comment(text) => ":" + text + "\n\n"
  }

  function PrintedAll(frames: seq<Frame>): string {
    if frames == [] then "" else Printed(frames[0]) + PrintedAll(frames[1..])
  }

  predicate OneLine(s: string) {
    '\n' !in s
  }

  /** Payloads are non-blank, trimmed and on one line; so are event names and comments on one line. */
  predicate Printable(f: Frame) {
    match f
    case Data(event, payload) =>
      payload != "" && IsTrimmed(payload) && OneLine(payload) && (event.Some? ==> OneLine(event.value))
    case Comment(text) => OneLine(text)
  }

  function Payloads(frames: seq<Frame>): seq<string> {
    if frames == [] then [] else (if frames[0].Data? then [frames[0].payload] else []) + Payloads(frames[1..])
  }

  predicate Accepted(p: string, decode: Decoder) {
    p == "[DONE]" || decode(p).Some?
  }

  function Meaning(p: string, decode: Decoder): Handed
    requires Accepted(p, decode)
  {
    if p == "[DONE]" then FinishCalled else Consumed(decode(p).value)
  }

  /** How many payloads come before the first one that is not accepted. */
  function Good(payloads: seq<string>, decode: Decoder): (k: nat)
    ensures k <= |payloads|
    ensures forall i :: 0 <= i < k ==> Accepted(payloads[i], decode)
  {
    if payloads == [] || !Accepted(payloads[0], decode) then 0 else 1 + Good(payloads[1..], decode)
  }

  /** What the first k payloads are handed over as. */
  function Meanings(payloads: seq<string>, k: nat, decode: Decoder): seq<Handed>
    requires k <= Good(payloads, decode)
  {
    seq(k, i requires 0 <= i < k => Meaning(payloads[i], decode))
  }

  // ---- one line at a time ----------------------------------------------------------------------

  lemma {:induction false} LineEndOf(x: string, rest: string)
    requires OneLine(x)
    ensures LineEnd(x + "\n" + rest) == |x| + 1
  {
    if x == "" {
      assert ("" + "\n" + rest)[0] == '\n';
    } else {
      assert (x + "\n" + rest)[1..] == x[1..] + "\n" + rest;
      LineEndOf(x[1..], rest);
    }
  }

  lemma DriveLine(x: string, rest: string, how: Ending, r: Relay, decode: Decoder)
    requires OneLine(x)
    ensures var next := Line(r, x + "\n", decode);
            Drive(x + "\n" + rest, how, r, decode) == if next.failed then next else Drive(rest, how, next, decode)
  {
    LineEndOf(x, rest);
    var body := x + "\n" + rest;
    assert body[..|x| + 1] == x + "\n" && body[|x| + 1..] == rest;
    hide Line, LineEnd;
  }

  lemma DriveCut(x: string, r: Relay, decode: Decoder)
    requires OneLine(x)
    ensures Drive(x, Quiet, r, decode) == r
  {}

  lemma {:induction false} TrimEolKeepsHead(line: string)
    requires line != "" && line[0] != '\r' && line[0] != '\n'
    ensures TrimEol(line) != ""
  {
    if line[|line| - 1] == '\r' || line[|line| - 1] == '\n' {
      TrimEolKeepsHead(line[..|line| - 1]);
    }
  }

  /** Event lines, comments and every other field leave the relay alone. */
  lemma OtherLine(r: Relay, line: string, decode: Decoder)
    requires line != "" && line[0] != '\r' && line[0] != '\n' && line[0] != 'd'
    ensures Line(r, line, decode) == r
  {
    TrimEolKeepsHead(line);
    hide TrimEol, Flush;
    DataHead(TrimEol(line));
  }

  lemma DataHead(s: string)
    ensures "data:" <= s ==> s != "" && s[0] == 'd'
  {}

  lemma DataLine(r: Relay, p: string, decode: Decoder)
    requires p != "" && IsTrimmed(p)
    ensures Line(r, DataField(p) + "\n", decode) == r.(dataLines := r.dataLines + [p])
  {
    hide Flush, TrimEol, TrimSpace, IsTrimmed, DataField;
    DataTrimmed(p);
    BlankBefore(p);
    DataPrefix(p);
  }

  lemma DataPrefix(p: string)
    ensures DataField(p) != "" && "data:" <= DataField(p) && DataField(p)[5..] == " " + p
  {}

  lemma DataTrimmed(p: string)
    requires p != "" && IsTrimmed(p)
    ensures TrimEol(DataField(p) + "\n") == DataField(p)
  {}

  lemma BlankBefore(p: string)
    requires p != "" && IsTrimmed(p)
    ensures TrimSpace(" " + p) == p
  {
    assert (" " + p)[1..] == p;
    assert TrimLeft(" " + p) == TrimLeft(p) == p;
    assert TrimRight(p) == p;
  }

  /** A line ending in CR LF is the same as one ending in LF. */
  lemma CrlfIsLf(r: Relay, x: string, decode: Decoder)
    ensures Line(r, x + "\r\n", decode) == Line(r, x + "\n", decode)
  {
    assert (x + "\r\n")[..|x| + 1] == x + "\r" && (x + "\r")[..|x|] == x && (x + "\n")[..|x|] == x;
    assert TrimEol(x + "\r\n") == TrimEol(x + "\r") == TrimEol(x) == TrimEol(x + "\n");
  }

  // ---- one payload at a time -------------------------------------------------------------------

  function Deliver(r: Relay, p: string, decode: Decoder): Relay {
    if Accepted(p, decode) then r.(handed := r.handed + [Meaning(p, decode)]) else r.(failed := true)
  }

  lemma FlushOne(r: Relay, p: string, decode: Decoder)
    requires p != "" && IsTrimmed(p) && r.dataLines == [p]
    ensures Flush(r, decode) == Deliver(r.(dataLines := []), p, decode)
  {
    assert TrimSpace(p) == p;
    hide TrimSpace, IsTrimmed;
    assert Join([p], "\n") == p;
  }

  lemma DriveBlank(rest: string, how: Ending, r: Relay, decode: Decoder)
    ensures var next := Flush(r, decode);
            Drive("\n" + rest, how, r, decode) == if next.failed then next else Drive(rest, how, next, decode)
  {}

  lemma DataOneLine(p: string)
    requires OneLine(p)
    ensures OneLine(DataField(p))
  {}

  lemma DriveHeld(p: string, rest: string, how: Ending, r: Relay, decode: Decoder)
    requires p != "" && IsTrimmed(p) && OneLine(p) && r.dataLines == [] && !r.failed
    ensures Drive(DataField(p) + "\n" + rest, how, r, decode) == Drive(rest, how, r.(dataLines := [p]), decode)
  {
    DataOneLine(p);
    DataLine(r, p, decode);
    assert r.dataLines + [p] == [p];
    hide *;
    DriveLine(DataField(p), rest, how, r, decode);
  }

  lemma DriveData(p: string, rest: string, how: Ending, r: Relay, decode: Decoder)
    requires p != "" && IsTrimmed(p) && OneLine(p) && r.dataLines == [] && !r.failed
    ensures var next := Deliver(r, p, decode);
            Drive(DataField(p) + "\n\n" + rest, how, r, decode) == if next.failed then next else Drive(rest, how, next, decode)
  {
    assert DataField(p) + "\n\n" + rest == DataField(p) + "\n" + ("\n" + rest);
    DriveHeld(p, "\n" + rest, how, r, decode);
    DriveBlank(rest, how, r.(dataLines := [p]), decode);
    FlushOne(r.(dataLines := [p]), p, decode);
    assert r.(dataLines := []) == r;
    hide Drive, Flush, Deliver, IsTrimmed, DataField;
  }

  /** A line the relay ignores. */
  lemma DriveOther(x: string, rest: string, how: Ending, r: Relay, decode: Decoder)
    requires x != "" && OneLine(x) && x[0] != '\r' && x[0] != 'd' && !r.failed
    ensures Drive(x + "\n" + rest, how, r, decode) == Drive(rest, how, r, decode)
  {
    DriveLine(x, rest, how, r, decode);
    assert (x + "\n")[0] == x[0];
    OtherLine(r, x + "\n", decode);
    hide Drive, Line;
  }

  lemma DriveEvent(event: Option<string>, rest: string, how: Ending, r: Relay, decode: Decoder)
    requires event.Some? ==> OneLine(event.value)
    requires !r.failed
    ensures Drive(EventLine(event) + rest, how, r, decode) == Drive(rest, how, r, decode)
  {
    if event.Some? {
      var x := "event: " + event.value;
      assert x[0] == 'e' && OneLine(x);
      assert EventLine(event) + rest == x + "\n" + rest;
      DriveOther(x, rest, how, r, decode);
    } else {
      assert "" + rest == rest;
    }
    hide Drive;
  }

  function AfterFrame(r: Relay, f: Frame, decode: Decoder): Relay {
    match f
    case Data(_, p) => Deliver(r, p, decode)
    case Comment(_) => r
  }

  lemma DriveFrame(f: Frame, rest: string, how: Ending, r: Relay, decode: Decoder)
    requires Printable(f) && r.dataLines == [] && !r.failed
    ensures var next := AfterFrame(r, f, decode);
            Drive(Printed(f) + rest, how, r, decode) == if next.failed then next else Drive(rest, how, next, decode)
  {
    hide Drive, IsTrimmed, Deliver, DataField, EventLine;
    match f {
      case Data(event, p) =>
        assert Printed(f) + rest == EventLine(event) + (DataField(p) + "\n\n" + rest);
        DriveEvent(event, DataField(p) + "\n\n" + rest, how, r, decode);
        DriveData(p, rest, how, r, decode);
      case Comment(text) =>
        assert Printed(f) + rest == (":" + text) + "\n" + ("\n" + rest);
        DriveOther(":" + text, "\n" + rest, how, r, decode);
        DriveBlank(rest, how, r, decode);
        assert Flush(r, decode) == r;
    }
  }

  // ---- whole bodies ----------------------------------------------------------------------------

  function DeliverAll(r: Relay, payloads: seq<string>, decode: Decoder): Relay
    decreases |payloads|
  {
    if payloads == [] || r.failed then r else DeliverAll(Deliver(r, payloads[0], decode), payloads[1..], decode)
  }

  lemma {:induction false} DriveFrames(frames: seq<Frame>, r: Relay, decode: Decoder)
    requires (forall f :: f in frames ==> Printable(f)) && r.dataLines == [] && !r.failed
    ensures Drive(PrintedAll(frames), Eof, r, decode) == DeliverAll(r, Payloads(frames), decode)
  {
    if frames == [] {
    } else {
      var f, rest := frames[0], frames[1..];
      DriveFrame(f, PrintedAll(rest), Eof, r, decode);
      var next := AfterFrame(r, f, decode);
      if !next.failed {
        DriveFrames(rest, next, decode);
      }
      PayloadsStep(frames, r, decode);
      hide Drive, Printable, Deliver, DeliverAll, Printed, Payloads;
    }
  }

  lemma PayloadsStep(frames: seq<Frame>, r: Relay, decode: Decoder)
    requires frames != [] && !r.failed
    ensures var next := AfterFrame(r, frames[0], decode);
            DeliverAll(r, Payloads(frames), decode) == if next.failed then next else DeliverAll(next, Payloads(frames[1..]), decode)
  {
    hide Deliver;
    if frames[0].Data? {
      var ps := Payloads(frames);
      assert ps[0] == frames[0].payload && ps[1..] == Payloads(frames[1..]);
      assert ps != [];
    } else {
      assert Payloads(frames) == Payloads(frames[1..]);
    }
  }

  lemma {:induction false} DeliverAllMeans(r: Relay, payloads: seq<string>, decode: Decoder)
    requires r.dataLines == [] && !r.failed
    ensures var k := Good(payloads, decode);
            DeliverAll(r, payloads, decode) == Relay([], r.handed + Meanings(payloads, k, decode), k < |payloads|)
    decreases |payloads|
  {
    if payloads == [] {
    } else {
      var p, rest := payloads[0], payloads[1..];
      var next := Deliver(r, p, decode);
      if !next.failed {
        DeliverAllMeans(next, rest, decode);
        MeaningsStep(payloads, decode);
        hide Meanings, Good, Meaning;
        assert r.handed + ([Meaning(p, decode)] + Meanings(rest, Good(rest, decode), decode))
            == r.handed + [Meaning(p, decode)] + Meanings(rest, Good(rest, decode), decode);
      }
    }
  }

  lemma MeaningsStep(payloads: seq<string>, decode: Decoder)
    requires payloads != [] && Accepted(payloads[0], decode)
    ensures var rest := payloads[1..];
            && Good(payloads, decode) == 1 + Good(rest, decode)
            && Meanings(payloads, Good(payloads, decode), decode)
            == [Meaning(payloads[0], decode)] + Meanings(rest, Good(rest, decode), decode)
  {}

  /** Printing and relaying undo each other: whatever event lines and comments surround them, the
      payloads reach the translator one by one, in order, up to the first that does not decode;
      when all decode, one Finish follows. */
  lemma PrintThenRelay(frames: seq<Frame>, decode: Decoder)
    requires forall f :: f in frames ==> Printable(f)
    ensures var payloads := Payloads(frames);
            var k := Good(payloads, decode);
            var relayed := Relayed(PrintedAll(frames), Eof, decode);
            && (relayed.failed <==> k < |payloads|)
            && relayed.handed == Meanings(payloads, k, decode) + if k < |payloads| then [] else [FinishCalled]
  {
    hide Drive, DeliverAll, Meanings, Payloads, Printable, PrintedAll, Good, Join, TrimSpace;
    DriveFrames(frames, START, decode);
    DeliverAllMeans(START, Payloads(frames), decode);
    assert [] + Meanings(Payloads(frames), Good(Payloads(frames), decode), decode)
        == Meanings(Payloads(frames), Good(Payloads(frames), decode), decode);
    EmptyFlush();
  }

  lemma EmptyFlush()
    ensures TrimSpace(Join([], "\n")) == ""
  {}

  // ---- bodies that stop short ------------------------------------------------------------------

  lemma CutLine(x: string, rest: string, c: nat, r: Relay, decode: Decoder)
    requires OneLine(x) && c <= |x| + 1 + |rest|
    ensures Drive((x + "\n" + rest)[..c], Quiet, r, decode)
         == if c <= |x| then r else Drive(x + "\n" + rest[..c - |x| - 1], Quiet, r, decode)
  {
    if c <= |x| {
      assert (x + "\n" + rest)[..c] == x[..c];
      DriveCut(x[..c], r, decode);
    } else {
      assert (x + "\n" + rest)[..c] == x + "\n" + rest[..c - |x| - 1];
    }
    hide Drive;
  }

  /** A wait given up inside a frame leaves at most that frame's payload behind. */
  ghost predicate CutShort(f: Frame, r: Relay, d: Relay) {
    d == r || (f.Data? && d == r.(dataLines := [f.payload]))
  }

  lemma CutData(event: Option<string>, p: string, c: nat, r: Relay, decode: Decoder)
    requires Printable(Data(event, p)) && r.dataLines == [] && !r.failed && c < |DataField(p)| + 2
    ensures CutShort(Data(event, p), r, Drive((DataField(p) + "\n\n")[..c], Quiet, r, decode))
  {
    var x := DataField(p);
    DataOneLine(p);
    assert x + "\n\n" == x + "\n" + "\n";
    CutLine(x, "\n", c, r, decode);
    if c > |x| {
      assert "\n"[..c - |x| - 1] == "";
      DriveHeld(p, "", Quiet, r, decode);
      DriveCut("", r.(dataLines := [p]), decode);
    }
    hide Drive, DataField, IsTrimmed;
  }

  lemma CutFrame(f: Frame, c: nat, r: Relay, decode: Decoder)
    requires Printable(f) && r.dataLines == [] && !r.failed && c < |Printed(f)|
    ensures CutShort(f, r, Drive(Printed(f)[..c], Quiet, r, decode))
  {
    match f {
      case Comment(text) =>
        var x := ":" + text;
        assert Printed(f) == x + "\n" + "\n";
        CutLine(x, "\n", c, r, decode);
        if c > |x| {
          assert "\n"[..c - |x| - 1] == "";
          DriveOther(x, "", Quiet, r, decode);
          DriveCut("", r, decode);
        }
      case Data(event, p) =>
        CutEvent(event, p, c, r, decode);
    }
    hide Drive, Printed, IsTrimmed;
  }

  lemma CutInEvent(event: Option<string>, body: string, c: nat)
    requires (event.Some? ==> OneLine(event.value)) && c < |EventLine(event)|
    ensures OneLine((EventLine(event) + body)[..c])
  {}

  lemma CutNowhere(f: Frame, r: Relay)
    ensures CutShort(f, r, r)
  {}

  lemma PrintableEvent(event: Option<string>, p: string)
    requires Printable(Data(event, p))
    ensures event.Some? ==> OneLine(event.value)
  {}

  lemma CutEvent(event: Option<string>, p: string, c: nat, r: Relay, decode: Decoder)
    requires Printable(Data(event, p)) && r.dataLines == [] && !r.failed && c < |Printed(Data(event, p))|
    ensures CutShort(Data(event, p), r, Drive(Printed(Data(event, p))[..c], Quiet, r, decode))
  {
    var body := DataField(p) + "\n\n";
    var before := EventLine(event);
    assert Printed(Data(event, p)) == before + body && |body| == |DataField(p)| + 2;
    hide *;
    CutBody(event, p, before, body, c, r, decode);
  }

  lemma TakeOfConcat(a: string, b: string, c: nat)
    requires |a| <= c <= |a| + |b|
    ensures (a + b)[..c] == a + b[..c - |a|]
  {}

  lemma CutBody(event: Option<string>, p: string, before: string, body: string, c: nat, r: Relay, decode: Decoder)
    requires Printable(Data(event, p)) && r.dataLines == [] && !r.failed && c < |before| + |body|
    requires before == EventLine(event) && body == DataField(p) + "\n\n"
    ensures CutShort(Data(event, p), r, Drive((before + body)[..c], Quiet, r, decode))
  {
    hide *;
    if c < |before| {
      PrintableEvent(event, p);
      CutInEvent(event, body, c);
      DriveCut((before + body)[..c], r, decode);
      assert CutShort(Data(event, p), r, r) by { CutNowhere(Data(event, p), r); }
    } else {
      TakeOfConcat(before, body, c);
      CutAfterEvent(event, p, body, c - |before|, r, decode);
    }
  }

  lemma CutAfterEvent(event: Option<string>, p: string, body: string, c: nat, r: Relay, decode: Decoder)
    requires Printable(Data(event, p)) && r.dataLines == [] && !r.failed && c < |body| && body == DataField(p) + "\n\n"
    ensures CutShort(Data(event, p), r, Drive(EventLine(event) + body[..c], Quiet, r, decode))
  {
    DriveEvent(event, body[..c], Quiet, r, decode);
    CutData(event, p, c, r, decode);
    hide Drive, IsTrimmed, CutShort, EventLine, OneLine;
  }

  /** What has been handed over when the wait is given up: the first j payloads and a Finish, or,
      after one that did not decode, just those before it. */
  ghost predicate HandsPrefix(r: Relay, done: Relay, payloads: seq<string>, decode: Decoder, j: nat) {
    && j <= Good(payloads, decode)
    && done.handed == r.handed + Meanings(payloads, j, decode) + (if done.failed then [] else [FinishCalled])
    && (done.failed ==> j == Good(payloads, decode) < |payloads|)
  }

  lemma ConcludeCut(f: Frame, r: Relay, d: Relay, payloads: seq<string>, decode: Decoder) returns (j: nat)
    requires Printable(f) && CutShort(f, r, d) && r.dataLines == [] && !r.failed
    requires f.Data? ==> payloads != [] && payloads[0] == f.payload
    ensures HandsPrefix(r, Conclude(d, Quiet, decode), payloads, decode, j)
  {
    if d != r {
      ConcludeHeld(f.payload, r, payloads, decode);
      j := if Accepted(f.payload, decode) then 1 else 0;
    } else {
      ConcludeEmpty(r, payloads, decode);
      j := 0;
    }
    hide Conclude, HandsPrefix, IsTrimmed;
  }

  lemma ConcludeEmpty(r: Relay, payloads: seq<string>, decode: Decoder)
    requires r.dataLines == [] && !r.failed
    ensures HandsPrefix(r, Conclude(r, Quiet, decode), payloads, decode, 0)
  {
    assert Meanings(payloads, 0, decode) == [] && r.handed + [] == r.handed;
    assert Flush(r, decode) == r;
    hide Flush, Meanings;
  }

  lemma ConcludeHeld(p: string, r: Relay, payloads: seq<string>, decode: Decoder)
    requires r.dataLines == [] && !r.failed && p != "" && IsTrimmed(p) && payloads != [] && payloads[0] == p
    ensures HandsPrefix(r, Conclude(r.(dataLines := [p]), Quiet, decode), payloads, decode,
                        if Accepted(p, decode) then 1 else 0)
  {
    FlushOne(r.(dataLines := [p]), p, decode);
    assert r.(dataLines := []) == r;
    if Accepted(p, decode) {
      assert Meanings(payloads, 1, decode) == [Meaning(p, decode)];
    } else {
      assert Meanings(payloads, 0, decode) == [] && r.handed + [] == r.handed;
    }
    hide Flush, Meanings, IsTrimmed;
  }

  /** One more payload in front. */
  lemma HandsOneMore(r: Relay, done: Relay, payloads: seq<string>, decode: Decoder, j: nat)
    requires payloads != [] && Accepted(payloads[0], decode)
    requires HandsPrefix(Deliver(r, payloads[0], decode), done, payloads[1..], decode, j)
    ensures HandsPrefix(r, done, payloads, decode, j + 1)
  {
    assert Good(payloads, decode) == 1 + Good(payloads[1..], decode);
    hide Good;
    assert Meanings(payloads, j + 1, decode) == [Meaning(payloads[0], decode)] + Meanings(payloads[1..], j, decode);
    hide Meanings;
  }

  lemma HandsNothing(r: Relay, payloads: seq<string>, decode: Decoder)
    requires payloads != [] && !Accepted(payloads[0], decode)
    ensures HandsPrefix(r, r.(failed := true), payloads, decode, 0)
  {}

  lemma CutLater(f: Frame, rest: seq<Frame>, r: Relay, done: Relay, decode: Decoder, j: nat)
    requires !AfterFrame(r, f, decode).failed && HandsPrefix(AfterFrame(r, f, decode), done, Payloads(rest), decode, j)
    ensures HandsPrefix(r, done, Payloads([f] + rest), decode, if f.Data? then j + 1 else j)
  {
    var payloads := Payloads([f] + rest);
    assert ([f] + rest)[1..] == rest;
    if f.Data? {
      assert payloads[1..] == Payloads(rest) && payloads[0] == f.payload;
      hide Payloads;
      HandsOneMore(r, done, payloads, decode, j);
    } else {
      assert payloads == Payloads(rest);
    }
    hide HandsPrefix;
  }

  /** The cut falls at or after the end of the first frame. */
  lemma CutPast(f: Frame, more: string, r: Relay, decode: Decoder)
    requires Printable(f) && r.dataLines == [] && !r.failed
    ensures var next := AfterFrame(r, f, decode);
            var whole := Conclude(Drive(Printed(f) + more, Quiet, r, decode), Quiet, decode);
            whole == if next.failed then next else Conclude(Drive(more, Quiet, next, decode), Quiet, decode)
  {
    DriveFrame(f, more, Quiet, r, decode);
    hide Drive, Flush, Printable, AfterFrame;
  }

  lemma PayloadsHead(frames: seq<Frame>)
    requires frames != [] && frames[0].Data?
    ensures Payloads(frames) != [] && Payloads(frames)[0] == frames[0].payload
  {}

  lemma AfterFailed(f: Frame, r: Relay, decode: Decoder)
    requires !r.failed
    ensures AfterFrame(r, f, decode).failed ==>
              f.Data? && !Accepted(f.payload, decode) && AfterFrame(r, f, decode) == r.(failed := true)
    ensures AfterFrame(r, f, decode).dataLines == r.dataLines
  {}

  lemma SplitCut(frames: seq<Frame>, c: nat)
    requires frames != [] && c <= |PrintedAll(frames)|
    ensures var first, more := Printed(frames[0]), PrintedAll(frames[1..]);
            if c < |first| then PrintedAll(frames)[..c] == first[..c]
            else c - |first| <= |more| && PrintedAll(frames)[..c] == first + more[..c - |first|]
  {
    hide Printed;
  }

  lemma NothingHeld(frames: seq<Frame>, c: nat, r: Relay, decode: Decoder)
    requires frames == [] && c <= |PrintedAll(frames)| && r.dataLines == [] && !r.failed
    ensures HandsPrefix(r, Conclude(Drive(PrintedAll(frames)[..c], Quiet, r, decode), Quiet, decode), Payloads(frames), decode, 0)
  {
    DriveCut(PrintedAll(frames)[..c], r, decode);
    hide Drive, Payloads;
    ConcludeEmpty(r, Payloads(frames), decode);
  }

  /** The cut falls inside the first frame. */
  lemma CutFirst(frames: seq<Frame>, c: nat, r: Relay, decode: Decoder) returns (j: nat)
    requires frames != [] && Printable(frames[0]) && r.dataLines == [] && !r.failed && c < |Printed(frames[0])|
    ensures HandsPrefix(r, Conclude(Drive(Printed(frames[0])[..c], Quiet, r, decode), Quiet, decode), Payloads(frames), decode, j)
  {
    if frames[0].Data? { PayloadsHead(frames); }
    hide *;
    CutFrame(frames[0], c, r, decode);
    j := ConcludeCut(frames[0], r, Drive(Printed(frames[0])[..c], Quiet, r, decode), Payloads(frames), decode);
  }

  lemma {:induction false} CutFrames(frames: seq<Frame>, c: nat, r: Relay, decode: Decoder) returns (j: nat)
    requires (forall f :: f in frames ==> Printable(f)) && r.dataLines == [] && !r.failed && c <= |PrintedAll(frames)|
    ensures HandsPrefix(r, Conclude(Drive(PrintedAll(frames)[..c], Quiet, r, decode), Quiet, decode), Payloads(frames), decode, j)
    decreases |frames|
  {
    hide *;
    if frames == [] {
      NothingHeld(frames, c, r, decode);
      return 0;
    }
    var f, rest := frames[0], frames[1..];
    AfterFailed(f, r, decode);
    assert f in frames && forall g :: g in rest ==> g in frames;
    SplitCut(frames, c);
    if c < |Printed(f)| {
      j := CutFirst(frames, c, r, decode);
      return;
    }
    var more := PrintedAll(rest)[..c - |Printed(f)|];
    CutPast(f, more, r, decode);
    var next := AfterFrame(r, f, decode);
    if next.failed {
      PayloadsHead(frames);
      HandsNothing(r, Payloads(frames), decode);
      j := 0;
    } else {
      j := CutFrames(rest, c - |Printed(f)|, next, decode);
      CutLater(f, rest, r, Conclude(Drive(more, Quiet, next, decode), Quiet, decode), decode, j);
      assert [f] + rest == frames;
      j := if f.Data? then j + 1 else j;
    }
  }

  /** A printed body that stops anywhere at all, because nothing more came in time or the request
      was cancelled, hands over whole payloads only, the first few of the list, in order, and then
      Finish; unless a payload did not decode, which ends it there. */
  lemma CutIsPrefix(frames: seq<Frame>, c: nat, decode: Decoder) returns (j: nat)
    requires (forall f :: f in frames ==> Printable(f)) && c <= |PrintedAll(frames)|
    ensures var payloads := Payloads(frames);
            var relayed := Relayed(PrintedAll(frames)[..c], Quiet, decode);
            && j <= Good(payloads, decode)
            && relayed.handed == Meanings(payloads, j, decode) + if relayed.failed then [] else [FinishCalled]
  {
    hide Drive, PrintedAll, Payloads, Meanings, Good, Printable, Conclude;
    j := CutFrames(frames, c, START, decode);
    assert [] + Meanings(Payloads(frames), j, decode) == Meanings(Payloads(frames), j, decode);
  }
}

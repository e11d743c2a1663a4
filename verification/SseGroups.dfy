/** The relay on any body at all: its lines, grouped by the blank ones, are the payloads. */
module SseGroups {
  import opened Optional
  import opened Text
  import opened SseRelay

  // ---- lines and groups, without any state -----------------------------------------------------

  /** Where the first newline is, |body| if there is none. */
  function NewlineAt(body: string): (i: nat)
    ensures i <= |body| && (i < |body| ==> body[i] == '\n') && forall j :: 0 <= j < i ==> body[j] != '\n'
  {
    if body == "" || body[0] == '\n' then 0 else 1 + NewlineAt(body[1..])
  }

  /** The lines of a body, without their newlines; a last line cut short counts unless the wait was
      given up. */
  function Lines(body: string, how: Ending): seq<string>
    decreases |body|
  {
    var i := NewlineAt(body);
    if i < |body| then [body[..i]] + Lines(body[i + 1..], how)
    else if body == "" || how.Quiet? then [] else [body]
  }

  predicate BlankLine(line: string) {
    forall i :: 0 <= i < |line| ==> line[i] == '\r'
  }

  /** What a data line carries. */
  function DataOf(line: string): Option<string> {
    var text := TrimEol(line);
    if "data:" <= text then Some(TrimSpace(text[5..])) else None
  }

  /** Data lines, one below the other. */
  function Glue(datas: seq<string>): string {
    if datas == [] then "" else if |datas| == 1 then datas[0] else datas[0] + "\n" + Glue(datas[1..])
  }

  function PayloadOf(datas: seq<string>): string {
    TrimSpace(Glue(datas))
  }

  /** The payload of each group that a blank line ends, empty ones left out. */
  function Payloads(lines: seq<string>, held: seq<string>): seq<string> {
    if lines == [] then []
    else if BlankLine(lines[0]) then
      (if PayloadOf(held) == "" then [] else [PayloadOf(held)]) + Payloads(lines[1..], [])
    else Payloads(lines[1..], WithData(held, lines[0]))
  }

  function WithData(held: seq<string>, line: string): seq<string> {
    if DataOf(line).Some? then held + [DataOf(line).value] else held
  }

  /** The data lines after the last blank line. */
  function Unended(lines: seq<string>, held: seq<string>): seq<string> {
    if lines == [] then held
    else if BlankLine(lines[0]) then Unended(lines[1..], [])
    else Unended(lines[1..], WithData(held, lines[0]))
  }

  // ---- one line --------------------------------------------------------------------------------

  lemma {:induction false} GlueMore(a: seq<string>, x: string)
    requires a != []
    ensures Glue(a + [x]) == Glue(a) + "\n" + x
  {
    if |a| > 1 {
      assert (a + [x])[1..] == a[1..] + [x];
      GlueMore(a[1..], x);
      assert a[0] + "\n" + (Glue(a[1..]) + "\n" + x) == a[0] + "\n" + Glue(a[1..]) + "\n" + x;
    }
  }

  lemma {:induction false} JoinIsGlue(a: seq<string>)
    ensures Join(a, "\n") == Glue(a)
  {
    if |a| > 1 {
      var front := a[..|a| - 1];
      JoinIsGlue(front);
      GlueMore(front, a[|a| - 1]);
      assert front + [a[|a| - 1]] == a;
    }
  }

  lemma {:induction false} TrimEolMeans(line: string)
    ensures var s := TrimEol(line);
            && (s != "" ==> s[|s| - 1] !in {'\r', '\n'})
            && forall i :: |s| <= i < |line| ==> line[i] in {'\r', '\n'}
  {
    if line != "" && line[|line| - 1] in {'\r', '\n'} {
      TrimEolMeans(line[..|line| - 1]);
      assert forall i :: 0 <= i < |line| - 1 ==> line[..|line| - 1][i] == line[i];
    }
  }

  lemma NotShorter(line: string, s: string, t: string)
    requires s <= line && t <= line && (s != "" ==> s[|s| - 1] !in {'\r', '\n'})
    requires forall i :: |t| <= i < |line| ==> line[i] in {'\r', '\n'}
    ensures |s| <= |t|
  {
    if s != "" {
      assert s[|s| - 1] == line[|s| - 1];
    }
  }

  /** Nothing else is trimmed so. */
  lemma TrimEolIs(line: string, s: string)
    requires s <= line && (s != "" ==> s[|s| - 1] !in {'\r', '\n'})
    requires forall i :: |s| <= i < |line| ==> line[i] in {'\r', '\n'}
    ensures TrimEol(line) == s
  {
    hide TrimEol;
    var t := TrimEol(line);
    TrimEolMeans(line);
    NotShorter(line, s, t);
    NotShorter(line, t, s);
  }

  lemma NewlineTrimmed(line: string)
    ensures TrimEol(line + "\n") == TrimEol(line)
  {
    hide TrimEol;
    var s := TrimEol(line);
    TrimEolMeans(line);
    assert forall i :: |s| <= i < |line| + 1 ==> (line + "\n")[i] in {'\r', '\n'};
    assert s <= line + "\n";
    TrimEolIs(line + "\n", s);
  }

  lemma BlankIsTrimmed(line: string)
    requires '\n' !in line
    ensures TrimEol(line) == "" <==> BlankLine(line)
  {
    hide TrimEol;
    TrimEolMeans(line);
    if BlankLine(line) {
      TrimEolIs(line, "");
    }
  }

  /** What a line does to a relay that has not failed. */
  lemma LineIs(r: Relay, line: string, decode: Decoder)
    requires '\n' !in line && !r.failed
    ensures Line(r, line + "\n", decode) == Line(r, line, decode)
    ensures Line(r, line, decode) ==
            if BlankLine(line) then
              var cleared := r.(dataLines := []);
              if PayloadOf(r.dataLines) == "" then cleared else Deliver(cleared, PayloadOf(r.dataLines), decode)
            else r.(dataLines := WithData(r.dataLines, line))
  {
    hide TrimEol, TrimSpace, BlankLine, Join, Glue;
    NewlineTrimmed(line);
    BlankIsTrimmed(line);
    JoinIsGlue(r.dataLines);
  }

  // ---- whole bodies ----------------------------------------------------------------------------

  lemma {:induction false} LineEndIs(body: string)
    ensures LineEnd(body) == if NewlineAt(body) < |body| then NewlineAt(body) + 1 else |body|
  {
    if body != "" && body[0] != '\n' {
      LineEndIs(body[1..]);
    }
  }

  lemma DriveStep(body: string, how: Ending, r: Relay, decode: Decoder)
    ensures var i := NewlineAt(body);
            Drive(body, how, r, decode) ==
            if i < |body| then
              var next := Line(r, body[..i] + "\n", decode);
              if next.failed then next else Drive(body[i + 1..], how, next, decode)
            else if body == "" || how.Quiet? then r
            else Line(r, body, decode)
  {
    hide Line, NewlineAt;
    LineEndIs(body);
    var i := NewlineAt(body);
    if i < |body| {
      assert body[..i + 1] == body[..i] + "\n";
    } else {
      assert body[..|body|] == body;
      assert body != "" ==> body[|body| - 1] != '\n';
    }
  }

  /** The relay after some lines: their payloads handed over, up to one that does not decode. */
  function Grouped(r: Relay, lines: seq<string>, decode: Decoder): Relay {
    var d := DeliverAll(r.(dataLines := []), Payloads(lines, r.dataLines), decode);
    if d.failed then d else d.(dataLines := Unended(lines, r.dataLines))
  }

  lemma DeliverFirst(r: Relay, p: string, rest: seq<string>, decode: Decoder)
    requires !r.failed
    ensures var next := Deliver(r, p, decode);
            && DeliverAll(r, [p] + rest, decode) == (if next.failed then next else DeliverAll(next, rest, decode))
            && next.dataLines == r.dataLines
  {
    hide Accepted, Meaning;
    assert ([p] + rest)[1..] == rest;
  }

  lemma GroupedStep(r: Relay, lines: seq<string>, decode: Decoder)
    requires lines != [] && !r.failed && '\n' !in lines[0]
    ensures var next := Line(r, lines[0], decode);
            && Grouped(r, lines, decode) == (if next.failed then next else Grouped(next, lines[1..], decode))
            && (next.failed ==> next.dataLines == [])
  {
    hide BlankLine, PayloadOf, DataOf, Line, Deliver;
    LineIs(r, lines[0], decode);
    var rest := lines[1..];
    if BlankLine(lines[0]) && PayloadOf(r.dataLines) != "" {
      var p := PayloadOf(r.dataLines);
      assert Payloads(lines, r.dataLines) == [p] + Payloads(rest, []);
      DeliverFirst(r.(dataLines := []), p, Payloads(rest, []), decode);
    } else if BlankLine(lines[0]) {
      assert Payloads(lines, r.dataLines) == [] + Payloads(rest, []) == Payloads(rest, []);
    }
  }

  lemma NoLines(r: Relay, decode: Decoder)
    requires !r.failed
    ensures Grouped(r, [], decode) == r
  {}

  lemma {:induction false} DriveIsGrouped(body: string, how: Ending, r: Relay, decode: Decoder)
    requires !r.failed
    ensures Drive(body, how, r, decode) == Grouped(r, Lines(body, how), decode)
    decreases |body|
  {
    hide Grouped, Line, Drive, NewlineAt;
    DriveStep(body, how, r, decode);
    var i, lines := NewlineAt(body), Lines(body, how);
    if i < |body| {
      var line := body[..i];
      LineIs(r, line, decode);
      assert lines == [line] + Lines(body[i + 1..], how) && lines[1..] == Lines(body[i + 1..], how);
      GroupedStep(r, lines, decode);
      var next := Line(r, line, decode);
      if !next.failed {
        DriveIsGrouped(body[i + 1..], how, next, decode);
      }
    } else if body == "" || how.Quiet? {
      NoLines(r, decode);
    } else {
      assert lines == [body] && lines[1..] == [];
      GroupedStep(r, lines, decode);
      var next := Line(r, body, decode);
      if !next.failed {
        NoLines(next, decode);
      }
    }
  }

  /** Any body, however it ends: the payloads of its groups reach the translator in order, up to the
      first that does not decode, which ends the relay without Finish. If all decode, a last group that
      no blank line ended follows if it decodes; if it does not, that fails the relay at the end of the
      body only; otherwise Finish comes last. */
  lemma RelayIsGrouping(body: string, how: Ending, decode: Decoder)
    ensures var lines := Lines(body, how);
            var payloads, last := Payloads(lines, []), PayloadOf(Unended(lines, []));
            var k := Good(payloads, decode);
            var relayed := Relayed(body, how, decode);
            if k < |payloads| then relayed == Relay([], Meanings(payloads, k, decode), true)
            else if last != "" && !Accepted(last, decode) then
              relayed == Relay([], Meanings(payloads, k, decode) + (if how.Eof? then [] else [FinishCalled]), how.Eof?)
            else
              relayed == Relay([], Meanings(payloads, k, decode) + (if last == "" then [] else [Meaning(last, decode)]) + [FinishCalled], false)
  {
    hide Drive, Lines, Payloads, Unended, Good, Meanings, Glue, Join, TrimSpace, DeliverAll, Accepted, Meaning;
    var lines := Lines(body, how);
    var payloads, held := Payloads(lines, []), Unended(lines, []);
    DriveIsGrouped(body, how, START, decode);
    DeliverAllMeans(START, payloads, decode);
    JoinIsGlue(held);
    FlushIs(DeliverAll(START, payloads, decode).(dataLines := held), decode);
    assert [] + Meanings(payloads, Good(payloads, decode), decode) == Meanings(payloads, Good(payloads, decode), decode);
  }

  lemma FlushIs(r: Relay, decode: Decoder)
    ensures Flush(r, decode) ==
            var cleared, p := r.(dataLines := []), PayloadOf(r.dataLines);
            if p == "" then cleared else if Accepted(p, decode) then cleared.(handed := r.handed + [Meaning(p, decode)]) else cleared.(failed := true)
  {
    hide TrimSpace, Join, Glue;
    JoinIsGlue(r.dataLines);
  }
}

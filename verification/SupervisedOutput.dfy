/** What a supervisor says, told line by line of the child's stdout. */
module SupervisedOutput {
  import opened Basics
  import opened BusTable
  import opened StreamJson
  import opened Supervision
  import opened Utterances
  import Child = HarnessProcess
  import LineStream

  /**
   The words one raw line stands for: its result if it is a result line, its text if it is an
   assistant line with any and the session is traced, and nothing otherwise.
   */
  function WordsOfLine(text: Bytes -> string, json: string -> Option<Json>, trace: bool, raw: Bytes): seq<Say> {
    if text(raw) == "" || json(text(raw)).None? then [] else
      var v := json(text(raw)).value;
      if HasType(v, "result") then [SaidOutput(ResultOf(v))]
      else if trace && AssistantTextOf(v) != "" then [SaidTrace(AssistantTextOf(v))]
      else []
  }

  function WordsOfLines(text: Bytes -> string, json: string -> Option<Json>, trace: bool, lines: seq<Bytes>): seq<Say> {
    if lines == [] then [] else WordsOfLine(text, json, trace, lines[0]) + WordsOfLines(text, json, trace, lines[1..])
  }

  lemma {:induction false} ReportsOfConcat(a: seq<Child.Event>, b: seq<Child.Event>, trace: bool)
    ensures Reports(a + b, trace) == Reports(a, trace) + Reports(b, trace)
    decreases |b|
  {
    if b == [] {
      assert a + b == a && Reports(a, trace) + [] == Reports(a, trace);
    } else {
      var m := |b| - 1;
      assert (a + b)[..|a + b| - 1] == a + b[..m];
      ReportsOfConcat(a, b[..m], trace);
      ConcatAssoc(Reports(a, trace), Reports(b[..m], trace), Report(b[m], trace));
    }
  }

  lemma ReportOfLine(text: Bytes -> string, json: string -> Option<Json>, trace: bool, raw: Bytes)
    ensures var e := Child.LineEvent(JsonDecoder(text, json), raw);
            Reports(if e.Some? then [e.value] else [], trace) == WordsOfLine(text, json, trace, raw)
  {
    var e := Child.LineEvent(JsonDecoder(text, json), raw);
    if e.Some? {
      assert [e.value][..0] == [] && [] + Report(e.value, trace) == Report(e.value, trace);
    }
  }

  lemma {:induction false} ReportsOfLines(text: Bytes -> string, json: string -> Option<Json>, trace: bool, lines: seq<Bytes>)
    ensures Reports(Child.EventsOfLines(JsonDecoder(text, json), lines), trace) == WordsOfLines(text, json, trace, lines)
    decreases |lines|
  {
    if lines != [] {
      var d := JsonDecoder(text, json);
      var e := Child.LineEvent(d, lines[0]);
      ReportOfLine(text, json, trace, lines[0]);
      ReportsOfLines(text, json, trace, lines[1..]);
      ReportsOfConcat(if e.Some? then [e.value] else [], Child.EventsOfLines(d, lines[1..]), trace);
    }
  }

  /**
   The words of a supervisor about everything its child printed, on the bytes printed: one
   `turn_output` per result line and, if traced, one `trace` per assistant line with text, in order.
   */
  lemma WordsAreTheLines(text: Bytes -> string, json: string -> Option<Json>, trace: bool, stdout: seq<Bytes>)
    ensures Reports(Child.Events(JsonDecoder(text, json), LineStream.Flat(stdout)), trace)
            == WordsOfLines(text, json, trace, LineStream.Lines(LineStream.Flat(stdout)))
  {
    ReportsOfLines(text, json, trace, LineStream.Lines(LineStream.Flat(stdout)));
  }

  // ----- On the bus -----

  /** The rows other than `Control` that one raw line is worth to the prime. */
  function RowsOfLine(utf8: string -> Bytes, text: Bytes -> string, json: string -> Option<Json>, trace: bool, raw: Bytes): seq<(Kind, Bytes)> {
    if text(raw) == "" || json(text(raw)).None? then [] else
      var v := json(text(raw)).value;
      if Field(v, "type", JString("result")) then [(TurnOutput, utf8(ResultOf(v)))]
      else if trace && AssistantTextOf(v) != "" then [(Trace, utf8(AssistantTextOf(v)))]
      else []
  }

  function RowsOfLines(utf8: string -> Bytes, text: Bytes -> string, json: string -> Option<Json>, trace: bool, lines: seq<Bytes>): seq<(Kind, Bytes)> {
    if lines == [] then [] else RowsOfLine(utf8, text, json, trace, lines[0]) + RowsOfLines(utf8, text, json, trace, lines[1..])
  }

  lemma {:induction false} ExpectedOfConcat(utf8: string -> Bytes, a: seq<Child.Event>, b: seq<Child.Event>, trace: bool)
    ensures Expected(utf8, a + b, trace) == Expected(utf8, a, trace) + Expected(utf8, b, trace)
    decreases |b|
  {
    if b == [] {
      assert a + b == a && Expected(utf8, a, trace) + [] == Expected(utf8, a, trace);
    } else {
      var m := |b| - 1;
      assert (a + b)[..|a + b| - 1] == a + b[..m];
      ExpectedOfConcat(utf8, a, b[..m], trace);
    }
  }

  lemma ExpectedOfLine(utf8: string -> Bytes, text: Bytes -> string, json: string -> Option<Json>, trace: bool, raw: Bytes)
    ensures var e := Child.LineEvent(JsonDecoder(text, json), raw);
            Expected(utf8, if e.Some? then [e.value] else [], trace) == RowsOfLine(utf8, text, json, trace, raw)
  {
    var e := Child.LineEvent(JsonDecoder(text, json), raw);
    if e.Some? {
      assert [e.value][..0] == [] && Expected(utf8, [], trace) == [];
    }
  }

  lemma {:induction false} ExpectedOfLines(utf8: string -> Bytes, text: Bytes -> string, json: string -> Option<Json>, trace: bool, lines: seq<Bytes>)
    ensures Expected(utf8, Child.EventsOfLines(JsonDecoder(text, json), lines), trace) == RowsOfLines(utf8, text, json, trace, lines)
    decreases |lines|
  {
    if lines != [] {
      var d := JsonDecoder(text, json);
      var e := Child.LineEvent(d, lines[0]);
      ExpectedOfLines(utf8, text, json, trace, lines[1..]);
      ExpectedOfConcat(utf8, if e.Some? then [e.value] else [], Child.EventsOfLines(d, lines[1..]), trace);
      ExpectedOfLine(utf8, text, json, trace, lines[0]);
      hide Child.LineEvent, RowsOfLine;
    }
  }

  /**
   What the prime is to get of everything the child printed, on the bytes printed: one `TurnOutput` row
   per result line and, if traced, one `Trace` row per assistant line with text, in order.
   */
  lemma RowsAreTheLines(utf8: string -> Bytes, text: Bytes -> string, json: string -> Option<Json>, trace: bool, stdout: seq<Bytes>)
    ensures Expected(utf8, Child.Events(JsonDecoder(text, json), LineStream.Flat(stdout)), trace)
            == RowsOfLines(utf8, text, json, trace, LineStream.Lines(LineStream.Flat(stdout)))
  {
    ExpectedOfLines(utf8, text, json, trace, LineStream.Lines(LineStream.Flat(stdout)));
  }
}

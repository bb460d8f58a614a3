/**
 The supervised child process (crates/wt-core/src/harness.rs): a cancel-safe line reader over
 its stdout, and the writer that feeds it user turns.

 The child is a source of bytes that may end at any time. JSON text decoding is a library call.
 */
module HarnessProcess {
  import opened Basics
  import opened LineStream

  datatype Event =
    | AssistantText(text: string)
    | TurnComplete(result: string, isError: bool)

  /**
   What a raw line goes through: lossy UTF-8 decoding with trimming, then the parser of
   stream-json lines (`StreamJson.ParseEvent`), which skips the lines nobody acts on.
   */
  datatype Decoder = Decoder(text: Bytes -> string, parse: string -> Option<Event>)

  /** What one raw line means, if anything: blank lines are skipped before parsing. */
  function LineEvent(d: Decoder, raw: Bytes): Option<Event> {
    var line := d.text(raw);
    if line == "" then None else d.parse(line)
  }

  function EventsOfLines(d: Decoder, lines: seq<Bytes>): seq<Event> {
    if lines == [] then [] else
      var e := LineEvent(d, lines[0]);
      (if e.Some? then [e.value] else []) + EventsOfLines(d, lines[1..])
  }

  /** The events printed by a stream of bytes. */
  function Events(d: Decoder, stream: Bytes): seq<Event> {
    EventsOfLines(d, Lines(stream))
  }

  lemma {:induction false} EventsOfConcat(d: Decoder, a: seq<Bytes>, b: seq<Bytes>)
    ensures EventsOfLines(d, a + b) == EventsOfLines(d, a) + EventsOfLines(d, b)
  {
    if a == [] {
      assert a + b == b;
    } else {
      assert (a + b)[1..] == a[1..] + b;
      EventsOfConcat(d, a[1..], b);
    }
  }

  /** Events do not depend on where the stream is cut: only the unfinished line carries over. */
  lemma EventsOfSplit(d: Decoder, a: Bytes, b: Bytes)
    ensures Events(d, a + b) == Events(d, a) + Events(d, Rest(a) + b)
  {
    LinesOfConcat(a, b);
    EventsOfConcat(d, Lines(a), Lines(Rest(a) + b));
  }

  /**
   `told` and the events still in `buf` are exactly the events printed in the reads served so
   far, and the unfinished line is theirs too.
   */
  ghost predicate Faithful(d: Decoder, served: seq<Bytes>, told: seq<Event>, buf: Bytes) {
    && told + Events(d, buf) == Events(d, Flat(served))
    && Rest(buf) == Rest(Flat(served))
  }

  function Told(told: seq<Event>, e: Option<Event>): seq<Event> {
    if e.Some? then told + [e.value] else told
  }

  lemma EventsOfFirstLine(d: Decoder, line: Bytes, more: Bytes)
    requires IsLine(line)
    ensures Events(d, line + more) == Told([], LineEvent(d, line)) + Events(d, more)
  {
    FirstLine(line, more);
    assert ([line] + Lines(more))[1..] == Lines(more);
  }

  lemma TellNext(told: seq<Event>, e: Option<Event>, more: seq<Event>)
    ensures told + (Told([], e) + more) == Told(told, e) + more
  {
    if e.Some? {
      assert [] + [e.value] == [e.value];
      ConcatAssoc(told, [e.value], more);
    } else {
      assert [] + more == more;
    }
  }

  /** Framing one complete line keeps the account straight. */
  lemma TakeLine(d: Decoder, served: seq<Bytes>, told: seq<Event>, line: Bytes, more: Bytes)
    requires IsLine(line) && Faithful(d, served, told, line + more)
    ensures Faithful(d, served, Told(told, LineEvent(d, line)), more)
  {
    EventsOfFirstLine(d, line, more);
    FirstLine(line, more);
    TellNext(told, LineEvent(d, line), Events(d, more));
  }

  /** A buffer without a complete line has nothing left to tell. */
  lemma NothingBuffered(d: Decoder, served: seq<Bytes>, told: seq<Event>, buf: Bytes)
    requires Faithful(d, served, told, buf) && NEWLINE !in buf
    ensures told == Events(d, Flat(served)) && buf == Rest(Flat(served))
  {
    NoLine(buf);
    assert told + [] == told;
  }

  /** One more read keeps the account straight. */
  lemma TakeRead(d: Decoder, served: seq<Bytes>, told: seq<Event>, buf: Bytes, c: Bytes)
    requires told == Events(d, Flat(served)) && buf == Rest(Flat(served))
    ensures Faithful(d, served + [c], told, buf + c)
  {
    FlatSnoc(served, c);
    EventsOfSplit(d, Flat(served), c);
    RestOfConcatIsRest(Flat(served), c);
  }

  /** The state of the line reader between calls, `stdout` being the reads still to come. */
  ghost predicate Account(d: Decoder, served: seq<Bytes>, told: seq<Event>, buf: Bytes, stdout: seq<Bytes>) {
    && Reads(served) && Reads(stdout)
    && Faithful(d, served, told, buf)
    && (served != [] ==> Quiet([], served[..|served| - 1]))
  }

  lemma ReadsShift(served: seq<Bytes>, stdout: seq<Bytes>)
    requires Reads(served) && Reads(stdout) && stdout != []
    ensures Reads(served + [stdout[0]]) && Reads(stdout[1..])
  {
  }

  lemma ServeOne(d: Decoder, served: seq<Bytes>, told: seq<Event>, buf: Bytes, stdout: seq<Bytes>)
    requires Account(d, served, told, buf, stdout) && NEWLINE !in buf && Quiet([], served) && stdout != []
    ensures Account(d, served + [stdout[0]], told, buf + stdout[0], stdout[1..])
    ensures (served + [stdout[0]]) + stdout[1..] == served + stdout
  {
    NothingBuffered(d, served, told, buf);
    TakeRead(d, served, told, buf, stdout[0]);
    ReadsShift(served, stdout);
    ShiftOne(served, stdout);
  }

  // ----- The process -----

  /** How a polled `next_event` ends. It is dropped when another branch of the select wins. */
  datatype Poll =
    | Ready(event: Event)
    | Exited(code: Option<int>)
    | LineTooLong
    | ReadFailed
    | Dropped

  class Harness {
    const decoder: Decoder
    const exitCode: Option<int>
    /** Stdout ends in a read error, not in an end of file. */
    const readFails: bool
    /** The stream-json line of a user turn. */
    const turnLine: string -> Bytes
    /** What was read after the last complete line. */
    var buf: Bytes
    /** The reads stdout will still serve before it closes. */
    var stdout: seq<Bytes>
    /** User turns written in full to the child so far, and how many more it will take. */
    var stdin: seq<string>
    var stdinRoom: nat
    /** What the last failed write left in the pipe: anything from nothing to the whole line. */
    var torn: Bytes
    /** Every read served so far, and every event returned so far. */
    ghost var served: seq<Bytes>
    ghost var told: seq<Event>

    /** The events told so far, and those still in the buffer, are exactly the events printed so far. */
    ghost predicate Valid()
      reads this
    {
      Account(decoder, served, told, buf, stdout)
    }

    constructor (decoder: Decoder, turnLine: string -> Bytes, stdout: seq<Bytes>, readFails: bool, exitCode: Option<int>, stdinRoom: nat)
      requires Reads(stdout)
      ensures Valid() && served == [] && told == [] && stdin == []
      ensures this.stdout == stdout && this.decoder == decoder && this.stdinRoom == stdinRoom
      ensures this.turnLine == turnLine && this.readFails == readFails && this.exitCode == exitCode && torn == []
    {
      this.decoder, this.turnLine, this.readFails, this.exitCode := decoder, turnLine, readFails, exitCode;
      this.stdout, this.stdin, this.stdinRoom, torn := stdout, [], stdinRoom, [];
      buf, served, told := [], [], [];
    }

    /** Hands the child its next turn. A failure, after which the child is given up, may leave part of the line behind. */
    method SendTurn(text: string) returns (ok: bool)
      modifies this`stdin, this`stdinRoom, this`torn
      ensures ok <==> old(stdinRoom) > 0
      ensures ok ==> stdin == old(stdin) + [text] && stdinRoom == old(stdinRoom) - 1 && torn == old(torn)
      ensures !ok ==> stdin == old(stdin) && stdinRoom == old(stdinRoom) && torn <= turnLine(text)
    {
      if stdinRoom == 0 {
        var n: nat :| n <= |turnLine(text)|;
        torn := turnLine(text)[..n];
        return false;
      }
      stdin, stdinRoom := stdin + [text], stdinRoom - 1;
      return true;
    }

    /** Takes complete lines off the buffer until one means something. */
    method DrainLines() returns (ev: Option<Event>)
      requires Valid()
      modifies this`buf, this`told
      ensures Valid()
      ensures told == Told(old(told), ev)
      ensures ev.None? ==> NEWLINE !in buf && told == Events(decoder, Flat(served))
      ensures ev.None? ==> (|buf| <= MAX_LINE_BYTES <==> Quiet([], served))
    {
      while true
        invariant Valid() && told == old(told)
        decreases |buf|
      {
        var pos := FirstNewline(buf);
        FirstCut(buf);
        if pos == |buf| {
          NothingBuffered(decoder, served, told, buf);
          QuietSoFar(served);
          return None;
        }
        var raw := buf[..pos + 1];
        TakeLine(decoder, served, told, raw, buf[pos + 1..]);
        buf := buf[pos + 1..];
        var line := decoder.text(raw);
        if line == "" {
          continue;
        }
        var e := decoder.parse(line);
        if e.Some? {
          told := told + [e.value];
          return e;
        }
      }
    }

    /** One read of stdout into the persistent buffer. */
    method ReadStdout()
      requires Valid() && NEWLINE !in buf && Quiet([], served) && stdout != []
      modifies this`buf, this`stdout, this`served
      ensures Valid()
      ensures served + stdout == old(served + stdout) && |served| == old(|served|) + 1 && old(served) <= served
    {
      ServeOne(decoder, served, told, buf, stdout);
      buf, served, stdout := buf + stdout[0], served + [stdout[0]], stdout[1..];
    }

    /**
     One poll of the event reader, dropped at its read once `patience` reads have been served.
     Whatever it returns, nothing printed is lost or told twice.
     */
    method NextEvent(patience: nat) returns (p: Poll)
      requires Valid()
      modifies this`buf, this`stdout, this`served, this`told
      ensures Valid()
      ensures served + stdout == old(served + stdout) && old(served) <= served
      ensures p.Ready? ==> told == old(told) + [p.event]
      ensures !p.Ready? ==> told == old(told) == Events(decoder, Flat(served))
      ensures p.Exited? ==> p.code == exitCode && stdout == [] && !readFails && Quiet([], served)
      ensures p.ReadFailed? ==> stdout == [] && readFails && Quiet([], served)
      ensures p.LineTooLong? ==> !Quiet([], served)
      ensures p.Dropped? ==> |served| == old(|served|) + patience
    {
      var n := 0;
      while true
        invariant Valid() && told == old(told)
        invariant served + stdout == old(served + stdout) && |served| == old(|served|) + n && old(served) <= served
        decreases |stdout|
      {
        var ev := DrainLines();
        if ev.Some? {
          return Ready(ev.value);
        }
        if |buf| > MAX_LINE_BYTES {
          return LineTooLong;
        }
        if n == patience {
          return Dropped;
        }
        if stdout == [] {
          return if readFails then ReadFailed else Exited(exitCode);
        }
        ReadStdout();
        n := n + 1;
      }
    }
  }
}

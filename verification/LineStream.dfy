/**
 What a byte stream means as newline-terminated lines, however it is cut into reads
 (the pure side of `Harness::next_event`, crates/wt-core/src/harness.rs).
 */
module LineStream {
  import opened Basics

  const NEWLINE: byte := 10
  /** Guard against a line with no end. */
  const MAX_LINE_BYTES: nat := 16 * 1024 * 1024
  /** Size of the read buffer. */
  const READ_BYTES: nat := 8192

  /** Index of the first newline, or |b| when there is none. */
  function FirstNewline(b: Bytes): (i: nat)
    ensures i <= |b|
  {
    if b == [] || b[0] == NEWLINE then 0 else 1 + FirstNewline(b[1..])
  }

  /** One line with the newline that ends it. */
  predicate IsLine(line: Bytes) {
    line != [] && line[|line| - 1] == NEWLINE && NEWLINE !in line[..|line| - 1]
  }

  lemma {:induction false} FirstNewlineFound(b: Bytes)
    ensures var i := FirstNewline(b);
            && NEWLINE !in b[..i]
            && (if i < |b| then b[i] == NEWLINE else NEWLINE !in b)
  {
    if b != [] && b[0] != NEWLINE {
      var i := FirstNewline(b);
      FirstNewlineFound(b[1..]);
      assert b[..i] == [b[0]] + b[1..][..i - 1];
      assert b == [b[0]] + b[1..];
    }
  }

  lemma {:induction false} FirstNewlineIs(b: Bytes, i: nat)
    requires i <= |b| && NEWLINE !in b[..i] && (i < |b| ==> b[i] == NEWLINE)
    ensures FirstNewline(b) == i
    decreases i
  {
    if i > 0 {
      assert b[0] == b[..i][0];
      assert b[1..][..i - 1] == b[..i][1..];
      FirstNewlineIs(b[1..], i - 1);
    }
  }

  /** The bytes up to and with a newline that is the first are a line. */
  lemma CutIsLine(b: Bytes, i: nat)
    requires i < |b| && b[i] == NEWLINE && NEWLINE !in b[..i]
    ensures IsLine(b[..i + 1])
  {
    var line := b[..i + 1];
    assert line[|line| - 1] == b[i];
    assert line[..|line| - 1] == b[..i];
  }

  lemma CutJoins(b: Bytes, i: nat)
    requires i <= |b|
    ensures b[..i] + b[i..] == b
  {
  }

  /** Cutting a stream after its first newline gives a line. */
  lemma FirstCut(b: Bytes)
    ensures var i := FirstNewline(b);
            if i < |b| then IsLine(b[..i + 1]) && b[..i + 1] + b[i + 1..] == b else NEWLINE !in b
  {
    var i := FirstNewline(b);
    FirstNewlineFound(b);
    if i < |b| {
      CutIsLine(b, i);
      CutJoins(b, i + 1);
    }
  }

  /** The complete lines of `b`, each with its newline. */
  function Lines(b: Bytes): seq<Bytes>
    decreases |b|
  {
    var i := FirstNewline(b);
    if i == |b| then [] else [b[..i + 1]] + Lines(b[i + 1..])
  }

  /** What follows the last newline of `b`. */
  function Rest(b: Bytes): (r: Bytes)
    ensures |r| <= |b|
    decreases |b|
  {
    var i := FirstNewline(b);
    if i == |b| then b else Rest(b[i + 1..])
  }

  /** The first line of a stream that has one. */
  lemma FirstLine(line: Bytes, more: Bytes)
    requires IsLine(line)
    ensures Lines(line + more) == [line] + Lines(more)
    ensures Rest(line + more) == Rest(more)
  {
    var b, n := line + more, |line| - 1;
    assert b[..n] == line[..n];
    FirstNewlineIs(b, n);
    assert b[..n + 1] == line && b[n + 1..] == more;
  }

  lemma NoLine(b: Bytes)
    requires NEWLINE !in b
    ensures Lines(b) == [] && Rest(b) == b
  {
    assert b[..|b|] == b;
    FirstNewlineIs(b, |b|);
  }

  lemma OneLine(line: Bytes)
    requires IsLine(line)
    ensures Lines(line) == [line] && Rest(line) == []
  {
    assert line + [] == line;
    FirstLine(line, []);
    NoLine([]);
  }

  lemma LinesOfConcatStep(line: Bytes, more: Bytes, b: Bytes)
    requires IsLine(line)
    requires Lines(more + b) == Lines(more) + Lines(Rest(more) + b) && Rest(more + b) == Rest(Rest(more) + b)
    ensures Lines(line + more + b) == Lines(line + more) + Lines(Rest(line + more) + b)
    ensures Rest(line + more + b) == Rest(Rest(line + more) + b)
  {
    ConcatAssoc(line, more, b);
    FirstLine(line, more + b);
    FirstLine(line, more);
    ConcatAssoc([line], Lines(more), Lines(Rest(more) + b));
  }

  /** Lines do not depend on where the stream is cut: only the unfinished rest carries over. */
  lemma {:induction false} LinesOfConcat(a: Bytes, b: Bytes)
    ensures Lines(a + b) == Lines(a) + Lines(Rest(a) + b)
    ensures Rest(a + b) == Rest(Rest(a) + b)
    decreases |a|
  {
    var i := FirstNewline(a);
    FirstCut(a);
    if i == |a| {
      NoLine(a);
    } else {
      var line, more := a[..i + 1], a[i + 1..];
      LinesOfConcat(more, b);
      LinesOfConcatStep(line, more, b);
    }
  }

  lemma {:induction false} RestHasNoNewline(b: Bytes)
    ensures NEWLINE !in Rest(b)
    decreases |b|
  {
    var i := FirstNewline(b);
    FirstCut(b);
    if i < |b| {
      RestHasNoNewline(b[i + 1..]);
    }
  }

  lemma RestOfConcatIsRest(a: Bytes, b: Bytes)
    ensures Rest(Rest(a) + b) == Rest(a + b)
    ensures Lines(Rest(a)) == [] && Rest(Rest(a)) == Rest(a)
  {
    LinesOfConcat(a, b);
    RestHasNoNewline(a);
    NoLine(Rest(a));
  }

  // ----- Streams cut into reads -----

  /** Reads that the operating system may serve: never empty, never more than the buffer. */
  predicate Reads(chunks: seq<Bytes>) {
    forall i :: 0 <= i < |chunks| ==> 0 < |chunks[i]| <= READ_BYTES
  }

  function Flat(chunks: seq<Bytes>): Bytes {
    if chunks == [] then [] else chunks[0] + Flat(chunks[1..])
  }

  lemma {:induction false} FlatConcat(a: seq<Bytes>, b: seq<Bytes>)
    ensures Flat(a + b) == Flat(a) + Flat(b)
  {
    if a == [] {
      assert a + b == b;
    } else {
      assert (a + b)[1..] == a[1..] + b;
      FlatConcat(a[1..], b);
    }
  }

  lemma FlatSnoc(a: seq<Bytes>, c: Bytes)
    ensures Flat(a + [c]) == Flat(a) + c
  {
    FlatConcat(a, [c]);
    assert [c][1..] == [] && Flat([c]) == c + [] == c;
  }

  /**
   The length guard stays quiet over these reads when the line begun so far is `part`:
   it looks at the unfinished line before every read, the one that meets the end included.
   */
  predicate Quiet(part: Bytes, chunks: seq<Bytes>)
    decreases |chunks|
  {
    |part| <= MAX_LINE_BYTES && (chunks == [] || Quiet(Rest(part + chunks[0]), chunks[1..]))
  }

  lemma {:induction false} QuietSnoc(part: Bytes, chunks: seq<Bytes>, c: Bytes)
    requires Rest(part) == part
    ensures Quiet(part, chunks + [c]) <==>
            Quiet(part, chunks) && |Rest(part + Flat(chunks) + c)| <= MAX_LINE_BYTES
    decreases |chunks|
  {
    if chunks == [] {
      assert (chunks + [c])[1..] == [] && part + Flat(chunks) == part;
    } else {
      var p := Rest(part + chunks[0]);
      assert (chunks + [c])[1..] == chunks[1..] + [c];
      var more := Flat(chunks[1..]) + c;
      assert part + Flat(chunks) + c == part + chunks[0] + more;
      assert p + Flat(chunks[1..]) + c == p + more;
      RestOfConcatIsRest(part + chunks[0], more);
      QuietSnoc(p, chunks[1..], c);
    }
  }

  /** The guard looks at one more unfinished line after each read. */
  lemma QuietSoFar(chunks: seq<Bytes>)
    requires chunks != [] ==> Quiet([], chunks[..|chunks| - 1])
    ensures Quiet([], chunks) <==> |Rest(Flat(chunks))| <= MAX_LINE_BYTES
  {
    NoLine([]);
    if chunks != [] {
      var a, c := chunks[..|chunks| - 1], chunks[|chunks| - 1];
      assert chunks == a + [c];
      QuietSnoc([], a, c);
      FlatSnoc(a, c);
      assert [] + Flat(a) + c == Flat(a) + c;
    }
  }

  lemma {:induction false} QuietConcat(part: Bytes, a: seq<Bytes>, b: seq<Bytes>)
    requires Rest(part) == part
    ensures Quiet(part, a + b) <==> Quiet(part, a) && Quiet(Rest(part + Flat(a)), b)
    decreases |a|
  {
    if a == [] {
      assert a + b == b && part + Flat(a) == part;
    } else {
      var p := Rest(part + a[0]);
      assert (a + b)[1..] == a[1..] + b;
      RestOfConcatIsRest(part + a[0], []);
      QuietConcat(p, a[1..], b);
      assert part + Flat(a) == part + a[0] + Flat(a[1..]);
      RestOfConcatIsRest(part + a[0], Flat(a[1..]));
    }
  }

  /** Every one of `lines` has at most `n` bytes before its newline. */
  predicate AllWithin(lines: seq<Bytes>, n: nat) {
    forall i :: 0 <= i < |lines| ==> |lines[i]| <= n + 1
  }

  lemma AllWithinConcat(a: seq<Bytes>, b: seq<Bytes>, n: nat)
    ensures AllWithin(a + b, n) <==> AllWithin(a, n) && AllWithin(b, n)
  {
    if AllWithin(a + b, n) {
      forall i | 0 <= i < |a| ensures |a[i]| <= n + 1 {
        assert (a + b)[i] == a[i];
      }
      forall i | 0 <= i < |b| ensures |b[i]| <= n + 1 {
        assert (a + b)[|a| + i] == b[i];
      }
    }
  }

  lemma AllWithinCons(line: Bytes, more: seq<Bytes>, n: nat)
    ensures AllWithin([line] + more, n) <==> |line| <= n + 1 && AllWithin(more, n)
  {
    AllWithinConcat([line], more, n);
    assert AllWithin([line], n) <==> |[line][0]| <= n + 1;
  }

  /** Every line of the stream, the unfinished one included, has at most `n` bytes before its newline. */
  predicate LinesWithin(stream: Bytes, n: nat) {
    AllWithin(Lines(stream), n) && |Rest(stream)| <= n
  }

  lemma PartIsStartOfLine(part: Bytes, more: Bytes, n: nat)
    requires NEWLINE !in part && LinesWithin(part + more, n)
    ensures |part| <= n
  {
    var i, b := FirstNewline(more), part + more;
    FirstCut(more);
    if i == |more| {
      NoLine(b);
    } else {
      var line := part + more[..i + 1];
      ConcatAssoc(part, more[..i + 1], more[i + 1..]);
      assert line[..|line| - 1] == part + more[..i + 1][..i];
      FirstLine(line, more[i + 1..]);
      AllWithinCons(line, Lines(more[i + 1..]), n);
    }
  }

  lemma WithinAfterPrefix(a: Bytes, b: Bytes, n: nat)
    requires LinesWithin(a + b, n)
    ensures LinesWithin(Rest(a) + b, n)
  {
    LinesOfConcat(a, b);
    AllWithinConcat(Lines(a), Lines(Rest(a) + b), n);
  }

  /** Lines of at most MAX_LINE_BYTES never trip the guard, however they are read. */
  lemma {:induction false} ShortLinesStayQuiet(part: Bytes, chunks: seq<Bytes>)
    requires NEWLINE !in part && LinesWithin(part + Flat(chunks), MAX_LINE_BYTES)
    ensures Quiet(part, chunks)
    decreases |chunks|
  {
    PartIsStartOfLine(part, Flat(chunks), MAX_LINE_BYTES);
    if chunks != [] {
      var a, more := part + chunks[0], Flat(chunks[1..]);
      assert part + Flat(chunks) == a + more;
      WithinAfterPrefix(a, more, MAX_LINE_BYTES);
      RestHasNoNewline(a);
      ShortLinesStayQuiet(Rest(a), chunks[1..]);
    }
  }

  /** No line is longer than its stream. */
  lemma {:induction false} LinesFit(b: Bytes, n: nat)
    requires |b| <= n + 1
    ensures AllWithin(Lines(b), n)
    decreases |b|
  {
    var k := FirstNewline(b);
    if k < |b| {
      LinesFit(b[k + 1..], n);
      AllWithinCons(b[..k + 1], Lines(b[k + 1..]), n);
    }
  }

  /** The most a line can hold before its newline and still slip past the guard. */
  const SLIP_BYTES: nat := MAX_LINE_BYTES + READ_BYTES - 1

  /** No line beyond SLIP_BYTES, and no long unfinished line. */
  predicate Slips(stream: Bytes) {
    AllWithin(Lines(stream), SLIP_BYTES) && |Rest(stream)| <= MAX_LINE_BYTES
  }

  /** Reads that stay quiet held no line beyond SLIP_BYTES, and left no long unfinished line. */
  lemma {:induction false} QuietMeansBounded(part: Bytes, chunks: seq<Bytes>)
    requires Reads(chunks) && NEWLINE !in part && Quiet(part, chunks)
    ensures Slips(part + Flat(chunks))
    decreases |chunks|
  {
    var all := part + Flat(chunks);
    if chunks == [] {
      assert all == part;
      NoLine(part);
    } else {
      var a, more := part + chunks[0], Flat(chunks[1..]);
      assert all == a + more;
      RestHasNoNewline(a);
      QuietMeansBounded(Rest(a), chunks[1..]);
      LinesOfConcat(a, more);
      LinesFit(a, SLIP_BYTES);
      AllWithinConcat(Lines(a), Lines(Rest(a) + more), SLIP_BYTES);
    }
  }

  /** The stream handed over one byte at a time. */
  function Singles(stream: Bytes): (chunks: seq<Bytes>)
    ensures Reads(chunks)
    ensures Flat(chunks) == stream
  {
    if stream == [] then [] else [[stream[0]]] + Singles(stream[1..])
  }

  lemma WithinPrepend(part: Bytes, more: Bytes, n: nat)
    requires NEWLINE !in part && |part| <= n && LinesWithin(more, n)
    ensures LinesWithin(part + [NEWLINE] + more, n)
  {
    var line := part + [NEWLINE];
    assert line[..|line| - 1] == part;
    FirstLine(line, more);
    AllWithinCons(line, Lines(more), n);
  }

  /** Byte by byte, the guard sees every line at its full length. */
  lemma {:induction false} SinglesQuietMeansShort(part: Bytes, stream: Bytes)
    requires NEWLINE !in part && Quiet(part, Singles(stream))
    ensures LinesWithin(part + stream, MAX_LINE_BYTES)
    decreases |stream|
  {
    if stream == [] {
      assert part + stream == part;
      NoLine(part);
    } else {
      var a, more := part + [stream[0]], stream[1..];
      assert part + stream == a + more;
      if stream[0] == NEWLINE {
        assert a[..|a| - 1] == part;
        OneLine(a);
        SinglesQuietMeansShort([], more);
        assert [] + more == more;
        WithinPrepend(part, more, MAX_LINE_BYTES);
      } else {
        NoLine(a);
        SinglesQuietMeansShort(a, more);
      }
    }
  }

  /** A line handed over in full buffers. */
  function Slices(line: Bytes): (chunks: seq<Bytes>)
    ensures Reads(chunks)
    ensures Flat(chunks) == line
    decreases |line|
  {
    if line == [] then []
    else if |line| <= READ_BYTES then assert line == line + []; [line]
    else [line[..READ_BYTES]] + Slices(line[READ_BYTES..])
  }

  /** Full buffers carry an unterminated line past the guard up to the slip bound. */
  lemma {:induction false} SlicesQuiet(part: Bytes, line: Bytes)
    requires line != [] && NEWLINE !in part && NEWLINE !in line[..|line| - 1]
    requires |part| % READ_BYTES == 0 && |part| + |line| <= SLIP_BYTES + 1
    requires line[|line| - 1] == NEWLINE || |part| + |line| <= MAX_LINE_BYTES
    ensures Quiet(part, Slices(line))
    decreases |line|
  {
    assert |part| <= MAX_LINE_BYTES;
    if |line| <= READ_BYTES {
      var b := part + line;
      assert Slices(line)[1..] == [];
      if line[|line| - 1] == NEWLINE {
        assert b[..|b| - 1] == part + line[..|line| - 1] && b == b + [];
        FirstLine(b, []);
        NoLine([]);
      } else {
        NoLine(b);
      }
    } else {
      var head, tail := line[..READ_BYTES], line[READ_BYTES..];
      var b := part + head;
      assert head == line[..|line| - 1][..READ_BYTES];
      assert tail[..|tail| - 1] == line[..|line| - 1][READ_BYTES..];
      NoLine(b);
      SlicesQuiet(b, tail);
    }
  }

  /** A way to read the whole stream that starts every line on a fresh buffer. */
  function LineAligned(stream: Bytes): (chunks: seq<Bytes>)
    ensures Reads(chunks)
    ensures Flat(chunks) == stream
    decreases |stream|
  {
    var i := FirstNewline(stream);
    if i == |stream| then Slices(stream) else
      var line, more := stream[..i + 1], stream[i + 1..];
      FlatConcat(Slices(line), LineAligned(more));
      assert line + more == stream;
      Slices(line) + LineAligned(more)
  }

  lemma SlipsOneLine(line: Bytes, chunks: seq<Bytes>)
    requires IsLine(line) && |line| <= SLIP_BYTES + 1 && Quiet([], chunks)
    ensures Quiet([], Slices(line) + chunks)
  {
    SlicesQuiet([], line);
    NoLine([]);
    assert [] + line == line;
    OneLine(line);
    QuietConcat([], Slices(line), chunks);
  }

  lemma SlipsTail(line: Bytes, more: Bytes)
    requires IsLine(line)
    requires Slips(line + more)
    ensures Slips(more) && |line| <= SLIP_BYTES + 1
  {
    FirstLine(line, more);
    AllWithinCons(line, Lines(more), SLIP_BYTES);
  }

  lemma {:induction false} LineAlignedQuiet(stream: Bytes)
    requires Slips(stream)
    ensures Quiet([], LineAligned(stream))
    decreases |stream|
  {
    var i := FirstNewline(stream);
    FirstCut(stream);
    if i == |stream| {
      NoLine(stream);
      if stream != [] {
        SlicesQuiet([], stream);
      }
    } else {
      var line, more := stream[..i + 1], stream[i + 1..];
      SlipsTail(line, more);
      LineAlignedQuiet(more);
      SlipsOneLine(line, LineAligned(more));
    }
  }

  /** The guard stays quiet however the stream is read iff no line is beyond MAX_LINE_BYTES. */
  lemma NeverTripsIffShort(stream: Bytes)
    ensures (forall chunks :: Reads(chunks) && Flat(chunks) == stream ==> Quiet([], chunks)) <==>
            LinesWithin(stream, 16 * 1024 * 1024)
  {
    assert [] + stream == stream;
    if LinesWithin(stream, MAX_LINE_BYTES) {
      forall chunks | Reads(chunks) && Flat(chunks) == stream ensures Quiet([], chunks) {
        ShortLinesStayQuiet([], chunks);
      }
    } else if Quiet([], Singles(stream)) {
      SinglesQuietMeansShort([], stream);
    }
  }

  lemma QuietStreamSlips(chunks: seq<Bytes>)
    requires Reads(chunks) && Quiet([], chunks)
    ensures Slips(Flat(chunks))
  {
    QuietMeansBounded([], chunks);
    assert [] + Flat(chunks) == Flat(chunks);
  }

  /**
   Some way of reading the stream gets past the guard iff no line is beyond SLIP_BYTES and
   the unfinished line is within MAX_LINE_BYTES. A line in between trips it or not depending
   only on how stdout was cut into reads.
   */
  lemma AlwaysTripsIffHuge(stream: Bytes)
    ensures (exists chunks :: Reads(chunks) && Flat(chunks) == stream && Quiet([], chunks)) <==> Slips(stream)
  {
    if Slips(stream) {
      LineAlignedQuiet(stream);
    } else {
      forall chunks | Reads(chunks) && Flat(chunks) == stream ensures !Quiet([], chunks) {
        if Quiet([], chunks) {
          QuietStreamSlips(chunks);
        }
      }
    }
  }
}

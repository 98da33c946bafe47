/** Reading lines and keeping tails of byte streams that arrive in pieces. */
module Lines {
  import opened Types

  type Byte = bv8

  const NEWLINE: Byte := 10

  function Flatten(chunks: seq<seq<Byte>>): seq<Byte> {
    if chunks == [] then [] else chunks[0] + Flatten(chunks[1..])
  }

  // ---- Bounded request lines -----------------------------------------------

  /** A buffered reader: the pieces its source will yield, the first of which is in
      the buffer.  No piece is empty. */
  class BufReader {
    var chunks: seq<seq<Byte>>

    constructor (chunks: seq<seq<Byte>>)
      requires forall i :: 0 <= i < |chunks| ==> chunks[i] != []
      ensures Valid() && Remaining() == Flatten(chunks)
    {
      this.chunks := chunks;
    }

    ghost predicate Valid()
      reads this
    {
      forall i :: 0 <= i < |chunks| ==> chunks[i] != []
    }

    function Remaining(): seq<Byte>
      reads this
    {
      Flatten(chunks)
    }

    /** Empty only at the end of the stream. */
    function FillBuf(): (available: seq<Byte>)
      requires Valid()
      reads this
      ensures available <= Remaining() && (available == [] <==> Remaining() == [])
    {
      if chunks == [] then [] else chunks[0]
    }

    method Consume(n: nat)
      requires Valid() && n <= |FillBuf()|
      modifies this
      ensures Valid() && old(Remaining()) == old(FillBuf())[..n] + Remaining()
    {
      if chunks != [] {
        var rest := chunks[0][n..];
        assert chunks[0] == chunks[0][..n] + rest;
        if rest == [] {
          chunks := chunks[1..];
        } else {
          assert ([rest] + chunks[1..])[1..] == chunks[1..];
          chunks := [rest] + chunks[1..];
        }
      }
    }
  }

  /** The length of the first line of `s`, its newline included. */
  function LineLength(s: seq<Byte>): (n: nat)
    ensures n <= |s|
    ensures forall i :: 0 <= i < n - 1 ==> s[i] != 10
    ensures n < |s| ==> n > 0 && s[n - 1] == 10
  {
    if s == [] then 0 else if s[0] == NEWLINE then 1 else 1 + LineLength(s[1..])
  }

  predicate NoNewline(s: seq<Byte>) {
    forall i :: 0 <= i < |s| ==> s[i] != NEWLINE
  }

  /** No newline yet: the line goes on. */
  lemma {:induction false} LineGoesOn(a: seq<Byte>, b: seq<Byte>)
    requires NoNewline(a)
    ensures LineLength(a + b) == |a| + LineLength(b)
  {
    if a == [] {
      assert a + b == b;
    } else {
      LineGoesOn(a[1..], b);
      assert (a + b)[1..] == a[1..] + b;
    }
  }

  method Position(s: seq<Byte>) returns (at: Option<nat>)
    ensures at.Some? ==> at.value < |s| && s[at.value] == NEWLINE && NoNewline(s[..at.value])
    ensures at.None? ==> NoNewline(s)
  {
    for i := 0 to |s|
      invariant NoNewline(s[..i])
    {
      if s[i] == NEWLINE {
        return Some(i);
      }
    }
    return None;
  }

  /** One line: a newline can only stand at its end, and does if anything follows. */
  ghost predicate IsLine(line: seq<Byte>, rest: seq<Byte>) {
    && (forall i :: 0 <= i < |line| - 1 ==> line[i] != 10)
    && (rest != [] ==> line != [] && line[|line| - 1] == 10)
  }

  lemma {:induction false} FirstLine(line: seq<Byte>, rest: seq<Byte>)
    requires |line| == LineLength(line + rest)
    ensures IsLine(line, rest)
  {
    var s := line + rest;
    assert forall i :: 0 <= i < |line| ==> s[i] == line[i];
  }

  /** At most `limit` bytes of `stream` are gone, all of them before its end. */
  ghost predicate Partial(stream: seq<Byte>, rest: seq<Byte>, limit: nat) {
    exists out: seq<Byte> :: |out| <= limit && stream == out + rest
  }

  /** However the stream is cut into pieces, the result is its first line, and just
      that line is consumed; reading fails exactly when the line is too long. */
  method ReadLimitedLine(reader: BufReader, limit: nat) returns (line: Result<seq<Byte>>)
    requires reader.Valid()
    modifies reader
    ensures reader.Valid()
    ensures line.Ok? <==> LineLength(old(reader.Remaining())) <= limit
    ensures line.Ok? ==> |line.value| == LineLength(old(reader.Remaining()))
    ensures line.Ok? ==> old(reader.Remaining()) == line.value + reader.Remaining()
    ensures line.Ok? ==> IsLine(line.value, reader.Remaining())
    ensures line.Err? ==> line.error == "daemon request exceeds " + Decimal(limit) + " bytes"
    ensures line.Err? ==> Partial(old(reader.Remaining()), reader.Remaining(), limit)
  {
    var out: seq<Byte> := [];
    ghost var stream := reader.Remaining();
    while true
      invariant reader.Valid() && |out| <= limit && NoNewline(out)
      invariant stream == out + reader.Remaining()
      decreases |reader.Remaining()|
    {
      LineGoesOn(out, reader.Remaining());
      ghost var rest := reader.Remaining();
      var piece, ended := TakePiece(reader, limit - |out|);
      if piece.None? {
        return Err("daemon request exceeds " + Decimal(limit) + " bytes");
      }
      Reassociate(out, piece.value, reader.Remaining());
      out := out + piece.value;
      if ended {
        FirstLine(out, reader.Remaining());
        return Ok(out);
      }
    }
  }

  lemma {:induction false} Reassociate(a: seq<Byte>, b: seq<Byte>, c: seq<Byte>)
    ensures a + (b + c) == (a + b) + c
  {
  }

  /** One turn of the reading loop: takes what the buffer holds of the line, unless
      there is no room for it. */
  method TakePiece(reader: BufReader, room: nat) returns (piece: Option<seq<Byte>>, ended: bool)
    requires reader.Valid()
    modifies reader
    ensures reader.Valid()
    ensures piece.Some? ==> old(reader.Remaining()) == piece.value + reader.Remaining() && |piece.value| <= room
    ensures piece.Some? ==>
              if ended then |piece.value| == LineLength(old(reader.Remaining()))
              else piece.value != [] && NoNewline(piece.value)
    ensures piece.None? ==> LineLength(old(reader.Remaining())) > room && reader.Remaining() == old(reader.Remaining())
  {
    var available := reader.FillBuf();
    if available == [] {
      return Some([]), true;
    }
    var newline := Position(available);
    var len := if newline.Some? then newline.value + 1 else |available|;
    LineFirst(reader.Remaining(), available, newline);
    if len > room {
      return None, true;
    }
    reader.Consume(len);
    return Some(available[..len]), newline.Some?;
  }

  /** Where the newline of a piece stands tells how long the line is, or at least
      that it takes up the whole piece. */
  lemma {:induction false} LineFirst(s: seq<Byte>, piece: seq<Byte>, newline: Option<nat>)
    requires piece <= s
    requires newline.Some? ==>
               newline.value < |piece| && piece[newline.value] == NEWLINE && NoNewline(piece[..newline.value])
    requires newline.None? ==> NoNewline(piece)
    ensures newline.Some? ==> LineLength(s) == newline.value + 1
    ensures newline.None? ==> LineLength(s) >= |piece|
  {
    var k := if newline.Some? then newline.value else |piece|;
    assert s == piece[..k] + s[k..];
    LineGoesOn(piece[..k], s[k..]);
  }

  // ---- A worker's error output ---------------------------------------------

  const STDERR_TAIL_LIMIT := 65536
  const STDERR_LINE_LIMIT := 16384

  function Tail(s: seq<Byte>, limit: nat): seq<Byte> {
    if |s| <= limit then s else s[|s| - limit..]
  }

  /** The bytes after the last newline. */
  function Current(s: seq<Byte>): seq<Byte> {
    if s == [] then []
    else if s[|s| - 1] == NEWLINE then []
    else Current(s[..|s| - 1]) + [s[|s| - 1]]
  }

  /** The lines that have ended, without their newlines. */
  function Finished(s: seq<Byte>): seq<seq<Byte>> {
    if s == [] then []
    else
      var front := s[..|s| - 1];
      Finished(front) + if s[|s| - 1] == NEWLINE then [Current(front)] else []
  }

  datatype TraceLine = TraceLine(text: seq<Byte>, truncated: bool)

  function Clip(line: seq<Byte>): TraceLine {
    if |line| <= STDERR_LINE_LIMIT then TraceLine(line, false) else TraceLine(line[..STDERR_LINE_LIMIT], true)
  }

  function ClipAll(lines: seq<seq<Byte>>): seq<TraceLine> {
    seq(|lines|, i requires 0 <= i < |lines| => Clip(lines[i]))
  }

  /** What is traced of a whole stream: every line, clipped; a last line without a
      newline counts unless it is empty. */
  function Traced(s: seq<Byte>): seq<TraceLine> {
    ClipAll(Finished(s) + if Current(s) == [] then [] else [Current(s)])
  }

  function Unlines(lines: seq<seq<Byte>>): seq<Byte> {
    if lines == [] then [] else Unlines(lines[..|lines| - 1]) + lines[|lines| - 1] + [NEWLINE]
  }

  lemma {:induction false} UnlinesMore(lines: seq<seq<Byte>>, line: seq<Byte>)
    ensures Unlines(lines + [line]) == Unlines(lines) + line + [NEWLINE]
  {
    assert (lines + [line])[..|lines|] == lines;
  }

  /** Cutting into lines loses nothing and leaves no newline inside a line. */
  lemma {:induction false} LinesRoundTrip(s: seq<Byte>)
    ensures Unlines(Finished(s)) + Current(s) == s
    ensures 10 !in Current(s) && forall i :: 0 <= i < |Finished(s)| ==> 10 !in Finished(s)[i]
    decreases |s|
  {
    if s != [] {
      var front := s[..|s| - 1];
      LinesRoundTrip(front);
      assert s == front + [s[|s| - 1]];
      if s[|s| - 1] == NEWLINE {
        UnlinesMore(Finished(front), Current(front));
        assert Unlines(Finished(s)) == Unlines(Finished(front)) + Current(front) + [NEWLINE];
      } else {
        assert Finished(s) == Finished(front);
        assert Unlines(Finished(front)) + Current(s) == front + [s[|s| - 1]];
      }
    }
  }

  /** What is traced is the lines of the stream in order, each cut after 16384 bytes, and
      marked if anything was cut off. */
  lemma {:induction false} TracedMeans(s: seq<Byte>)
    ensures var lines := Finished(s) + if Current(s) == [] then [] else [Current(s)];
      && |Traced(s)| == |lines|
      && forall i :: 0 <= i < |lines| ==>
           && Traced(s)[i].text <= lines[i]
           && |Traced(s)[i].text| == (if |lines[i]| < 16384 then |lines[i]| else 16384)
           && (Traced(s)[i].truncated <==> |lines[i]| > 16384)
  {
  }

  lemma {:induction false} TailIsEnd(s: seq<Byte>)
    ensures IsEndOf(Tail(s, STDERR_TAIL_LIMIT), s)
  {
  }

  /** `tail` is the end of `s`, all of it or its last 65536 bytes. */
  ghost predicate IsEndOf(tail: seq<Byte>, s: seq<Byte>) {
    && |tail| == (if |s| < 65536 then |s| else 65536)
    && tail == s[|s| - |tail|..]
  }

  class StderrTail {
    var bytes: seq<Byte>

    constructor ()
      ensures bytes == []
    {
      bytes := [];
    }

    method PushTail(pushed: seq<Byte>)
      requires |bytes| <= STDERR_TAIL_LIMIT
      modifies this
      ensures bytes == Tail(old(bytes) + pushed, STDERR_TAIL_LIMIT)
      ensures IsEndOf(bytes, old(bytes) + pushed)
    {
      for i := 0 to |pushed|
        invariant bytes == Tail(old(bytes) + pushed[..i], STDERR_TAIL_LIMIT)
      {
        ghost var before := old(bytes) + pushed[..i];
        assert old(bytes) + pushed[..i + 1] == before + [pushed[i]];
        if |bytes| == STDERR_TAIL_LIMIT {
          bytes := bytes[1..];
        }
        bytes := bytes + [pushed[i]];
      }
      assert pushed[..|pushed|] == pushed;
    }
  }

  lemma {:induction false} TailMore(s: seq<Byte>, more: seq<Byte>, limit: nat)
    ensures Tail(Tail(s, limit) + more, limit) == Tail(s + more, limit)
  {
    if |s| > limit {
      var gone := s[..|s| - limit];
      assert s == gone + Tail(s, limit);
      assert s + more == gone + (Tail(s, limit) + more);
    }
  }

  lemma {:induction false} FlattenMore(chunks: seq<seq<Byte>>, i: nat)
    requires i < |chunks|
    ensures Flatten(chunks[..i + 1]) == Flatten(chunks[..i]) + chunks[i]
  {
    if i == 0 {
      assert chunks[..1] == [chunks[0]] && chunks[..0] == [];
      assert chunks[..1][1..] == [];
    } else {
      FlattenMore(chunks[1..], i - 1);
      assert chunks[..i + 1][1..] == chunks[1..][..i] && chunks[..i][1..] == chunks[1..][..i - 1];
    }
  }

  lemma {:induction false} CaptureMore(chunks: seq<seq<Byte>>, i: nat)
    requires i < |chunks|
    ensures var before, after := Flatten(chunks[..i]), Flatten(chunks[..i + 1]);
      && after == before + chunks[i]
      && Tail(after, STDERR_TAIL_LIMIT) == Tail(Tail(before, STDERR_TAIL_LIMIT) + chunks[i], STDERR_TAIL_LIMIT)
  {
    FlattenMore(chunks, i);
    TailMore(Flatten(chunks[..i]), chunks[i], STDERR_TAIL_LIMIT);
  }

  /** A last line without a newline is traced unless it is empty. */
  lemma {:induction false} TracedEnd(s: seq<Byte>, line: seq<Byte>, truncated: bool)
    requires TraceLine(line, truncated) == Clip(Current(s))
    ensures Traced(s) == ClipAll(Finished(s)) + if line != [] || truncated then [TraceLine(line, truncated)] else []
  {
  }

  /** The stderr reader: the tail kept for the error report and the lines traced on
      the way depend on the stream alone, not on how reads cut it up. */
  method CaptureStderr(chunks: seq<seq<Byte>>) returns (tail: seq<Byte>, traced: seq<TraceLine>)
    ensures IsEndOf(tail, Flatten(chunks))
    ensures traced == Traced(Flatten(chunks))
  {
    var kept := new StderrTail();
    var line: seq<Byte>, truncated := [], false;
    traced := [];
    for i := 0 to |chunks|
      invariant fresh(kept)
      invariant kept.bytes == Tail(Flatten(chunks[..i]), STDERR_TAIL_LIMIT)
      invariant traced == ClipAll(Finished(Flatten(chunks[..i])))
      invariant TraceLine(line, truncated) == Clip(Current(Flatten(chunks[..i])))
    {
      CaptureMore(chunks, i);
      kept.PushTail(chunks[i]);
      line, truncated, traced := TraceChunk(chunks[i], line, truncated, traced, Flatten(chunks[..i]));
    }
    assert chunks[..|chunks|] == chunks;
    TracedEnd(Flatten(chunks), line, truncated);
    if line != [] || truncated {
      traced := traced + [TraceLine(line, truncated)];
    }
    TailIsEnd(Flatten(chunks));
    tail := kept.bytes;
  }

  method TraceChunk(
    chunk: seq<Byte>, line0: seq<Byte>, truncated0: bool, traced0: seq<TraceLine>, ghost seen: seq<Byte>)
    returns (line: seq<Byte>, truncated: bool, traced: seq<TraceLine>)
    requires traced0 == ClipAll(Finished(seen)) && TraceLine(line0, truncated0) == Clip(Current(seen))
    ensures traced == ClipAll(Finished(seen + chunk)) && TraceLine(line, truncated) == Clip(Current(seen + chunk))
  {
    line, truncated, traced := line0, truncated0, traced0;
    assert seen + [] == seen;
    for i := 0 to |chunk|
      invariant traced == ClipAll(Finished(seen + chunk[..i]))
      invariant TraceLine(line, truncated) == Clip(Current(seen + chunk[..i]))
    {
      assert seen + chunk[..i + 1] == seen + chunk[..i] + [chunk[i]];
      line, truncated, traced := TraceByte(chunk[i], line, truncated, traced, seen + chunk[..i]);
    }
    assert chunk[..|chunk|] == chunk;
  }

  method TraceByte(
    b: Byte, line0: seq<Byte>, truncated0: bool, traced0: seq<TraceLine>, ghost seen: seq<Byte>)
    returns (line: seq<Byte>, truncated: bool, traced: seq<TraceLine>)
    requires traced0 == ClipAll(Finished(seen)) && TraceLine(line0, truncated0) == Clip(Current(seen))
    ensures traced == ClipAll(Finished(seen + [b])) && TraceLine(line, truncated) == Clip(Current(seen + [b]))
  {
    line, truncated, traced := line0, truncated0, traced0;
    OneByte(seen, b);
    if b == NEWLINE {
      traced := traced + [TraceLine(line, truncated)];
      line, truncated := [], false;
    } else if |line| < STDERR_LINE_LIMIT {
      line := line + [b];
    } else {
      truncated := true;
    }
  }

  lemma {:induction false} OneByte(s: seq<Byte>, b: Byte)
    ensures Current(s + [b]) == if b == NEWLINE then [] else Current(s) + [b]
    ensures ClipAll(Finished(s + [b])) == ClipAll(Finished(s)) + if b == NEWLINE then [Clip(Current(s))] else []
  {
    assert (s + [b])[..|s|] == s;
  }
}

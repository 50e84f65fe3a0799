/**
 * The buffered line reader of the CDDB client: fnReadChar keeps a static
 * 256-byte buffer with a read position and a count of unread bytes and
 * refills it from the socket only when it is empty; fnReadLine pulls
 * characters from it until a newline, the end of the data, an error, or
 * a full line buffer.
 *
 * The socket is a sequence of read results. Each read either delivers a
 * chunk of bytes (at most as many as the reader asks for; the rest of the
 * chunk stays pending), is interrupted by a signal (EINTR), or fails.
 * A chunk with no bytes, and a socket with nothing pending, is the end of
 * the data: read returns 0.
 */
module LineReader {

  /** MAX_CDDB_LINE_LENGTH: the size of the reader's buffer and of a line. */
  const MaxCddbLineLength: nat := 256

  datatype ReadEvent = Chunk(data: seq<char>) | Interrupted | Failed

  /** What one call of read() returns: the count (-1 on error), whether errno
      is EINTR, the bytes delivered, and the events still pending. */
  datatype ReadReturn = ReadReturn(count: int, interrupted: bool, data: seq<char>, rest: seq<ReadEvent>)

  /** One read() of at most cap bytes. */
  function ReadOnce(pending: seq<ReadEvent>, cap: nat): (rr: ReadReturn)
    requires cap > 0
    ensures -1 <= rr.count <= cap
    ensures rr.count >= 0 ==> |rr.data| == rr.count && !rr.interrupted
    ensures rr.count < 0 ==> rr.data == []
    ensures rr.interrupted ==> rr.count < 0 && |rr.rest| < |pending|
    ensures |rr.rest| <= |pending|
  {
    if pending == [] then ReadReturn(0, false, [], [])
    else match pending[0]
      case Chunk(d) =>
        if |d| <= cap then ReadReturn(|d|, false, d, pending[1..])
        else ReadReturn(cap, false, d[..cap], [Chunk(d[cap..])] + pending[1..])
      case Interrupted => ReadReturn(-1, true, [], pending[1..])
      case Failed => ReadReturn(-1, false, [], pending[1..])
  }

  /** Every byte the socket delivers before the end of the data or an error,
      in arrival order; interrupted reads deliver nothing. */
  function Delivered(pending: seq<ReadEvent>): seq<char>
  {
    if pending == [] then []
    else match pending[0]
      case Chunk(d) => if d == [] then [] else d + Delivered(pending[1..])
      case Interrupted => Delivered(pending[1..])
      case Failed => []
  }

  /** The connected socket, as the read results it has still to give. */
  class Socket {
    var pending: seq<ReadEvent>

    constructor (events: seq<ReadEvent>)
      ensures pending == events
    {
      pending := events;
    }

    /** read(fd, dst, dst.Length). */
    method Read(dst: array<char>) returns (count: int, interrupted: bool)
      requires dst.Length > 0
      modifies this, dst
      ensures var rr := ReadOnce(old(pending), dst.Length);
              count == rr.count && interrupted == rr.interrupted && pending == rr.rest &&
              (count >= 0 ==> dst[..count] == rr.data && dst[count..] == old(dst[count..])) &&
              (count < 0 ==> dst[..] == old(dst[..]))
    {
      if pending == [] {
        return 0, false;
      }
      match pending[0]
      case Interrupted =>
        pending := pending[1..];
        return -1, true;
      case Failed =>
        pending := pending[1..];
        return -1, false;
      case Chunk(d) =>
        var k := if |d| <= dst.Length then |d| else dst.Length;
        forall i | 0 <= i < k {
          dst[i] := d[i];
        }
        pending := if k < |d| then [Chunk(d[k..])] + pending[1..] else pending[1..];
        count, interrupted := k, false;
    }
  }

  // ---------------------------------------------------------------------
  // fnReadChar
  // ---------------------------------------------------------------------

  /** The outcome of fnReadChar with the buffered bytes and pending events
      left after it. */
  datatype CharStep =
    | Got(c: char, buffered: seq<char>, pending: seq<ReadEvent>)  // returns 1
    | EndOfData(pending: seq<ReadEvent>)                          // returns 0
    | ReadError(pending: seq<ReadEvent>)                          // returns -1

  /** A read that was not interrupted: an error, the end of the data, or a
      fresh buffer whose first byte is handed out. */
  function Settle(rr: ReadReturn): CharStep
    requires rr.count >= 0 ==> |rr.data| == rr.count
  {
    if rr.count < 0 then ReadError(rr.rest)
    else if rr.count == 0 then EndOfData(rr.rest)
    else Got(rr.data[0], rr.data[1..], rr.rest)
  }

  /** fnReadChar: the next buffered byte; with an empty buffer, read up to
      256 bytes first, reading again as long as the read is interrupted. */
  function NextChar(buffered: seq<char>, pending: seq<ReadEvent>): CharStep
    decreases |pending|
  {
    if buffered != [] then Got(buffered[0], buffered[1..], pending)
    else
      var rr := ReadOnce(pending, MaxCddbLineLength);
      if rr.interrupted then NextChar([], rr.rest) else Settle(rr)
  }

  /** The bytes still to come: those buffered, then those the socket delivers. */
  function Stream(buffered: seq<char>, pending: seq<ReadEvent>): seq<char>
  {
    buffered + Delivered(pending)
  }

  /**
   * fnReadChar hands out the bytes in arrival order: the byte it returns is
   * the first of the stream and the rest of the stream is what remains. It
   * reports the end of the data or an error only when the stream is empty,
   * and it reads from the socket only when its buffer is empty.
   */
  lemma {:induction false} NextCharInOrder(buffered: seq<char>, pending: seq<ReadEvent>)
    ensures match NextChar(buffered, pending)
            case Got(c, b, p) => Stream(buffered, pending) == [c] + Stream(b, p)
            case EndOfData(_) => Stream(buffered, pending) == []
            case ReadError(_) => Stream(buffered, pending) == []
    ensures buffered != [] ==> NextChar(buffered, pending).Got? &&
                               NextChar(buffered, pending).pending == pending
    decreases |pending|
  {
    if buffered == [] {
      var rr := ReadOnce(pending, MaxCddbLineLength);
      if rr.interrupted {
        NextCharInOrder([], rr.rest);
      } else if pending != [] && pending[0].Chunk? && rr.count > 0 {
        var d := pending[0].data;
        if |d| > MaxCddbLineLength {
          assert d == d[..MaxCddbLineLength] + d[MaxCddbLineLength..];
          assert Delivered(rr.rest) == d[MaxCddbLineLength..] + Delivered(pending[1..]);
        }
      }
    }
  }

  /** An interrupted read is retried: fnReadChar behaves as if it had not
      happened. */
  lemma RetriesInterruptedRead(pending: seq<ReadEvent>)
    ensures NextChar([], [Interrupted] + pending) == NextChar([], pending)
  {
    assert ([Interrupted] + pending)[1..] == pending;
  }

  /** The static state of fnReadChar: the buffer, the read position and the
      count of unread bytes (negative after a failed read). */
  class LineReader {
    const sock: Socket
    const buffer: array<char>
    var pos: int
    var count: int

    ghost predicate Valid()
      reads this
    {
      buffer.Length == MaxCddbLineLength &&
      0 <= pos <= buffer.Length && (count > 0 ==> pos + count <= buffer.Length)
    }

    /** The bytes read from the socket and not yet handed out. */
    ghost function Buffered(): seq<char>
      requires Valid()
      reads this, buffer
    {
      if count > 0 then buffer[pos..pos + count] else []
    }

    constructor (s: Socket)
      ensures Valid() && sock == s && Buffered() == []
      ensures fresh(buffer)
    {
      sock := s;
      buffer := new char[MaxCddbLineLength];
      pos, count := 0, 0;
    }

    /** fnReadChar: returns 1 and the next byte, 0 at the end of the data,
        -1 on a read error. */
    method ReadChar() returns (r: int, c: char)
      requires Valid()
      modifies this, buffer, sock
      ensures Valid()
      ensures match NextChar(old(Buffered()), old(sock.pending))
              case Got(ch, b, p) => r == 1 && c == ch && Buffered() == b && sock.pending == p
              case EndOfData(p) => r == 0 && Buffered() == [] && sock.pending == p
              case ReadError(p) => r == -1 && Buffered() == [] && sock.pending == p
      ensures old(Buffered()) != [] ==> sock.pending == old(sock.pending)
    {
      if count <= 0 {
        var n, intr := sock.Read(buffer);
        while intr
          invariant Valid()
          invariant -1 <= n <= buffer.Length
          invariant n >= 0 ==> !intr
          invariant intr ==> n < 0 && NextChar([], old(sock.pending)) == NextChar([], sock.pending)
          invariant !intr ==>
                      NextChar([], old(sock.pending))
                      == Settle(ReadReturn(n, false, if n >= 0 then buffer[..n] else [], sock.pending))
          decreases |sock.pending| + (if intr then 1 else 0)
        {
          ghost var before := sock.pending;
          n, intr := sock.Read(buffer);
          assert ReadOnce(before, MaxCddbLineLength).rest == sock.pending;
        }
        count := n;
        if n < 0 {
          return -1, ' ';
        }
        if n == 0 {
          return 0, ' ';
        }
        pos := 0;
        assert buffer[0..count] == buffer[..n];
      }
      count := count - 1;
      c := buffer[pos];
      pos := pos + 1;
      r := 1;
    }

    /** fnReadLine with a buffer of max bytes: the return value and the text
        stored before the terminating NUL. */
    method ReadLine(max: int) returns (r: int, line: string)
      requires Valid()
      modifies this, buffer, sock
      ensures Valid()
      ensures var s := LineFrom(old(Buffered()), old(sock.pending), max, 1, []);
              Buffered() == s.buffered && sock.pending == s.pending &&
              r == s.outcome.Result() && line == s.outcome.Text()
    {
      ghost var b0, p0 := Buffered(), sock.pending;
      var counter := 1;
      line := "";
      while counter < max
        invariant Valid()
        invariant 1 <= counter && |line| == counter - 1
        invariant LineFrom(Buffered(), sock.pending, max, counter, line) == LineFrom(b0, p0, max, 1, [])
        decreases max - counter
      {
        var got, c := ReadChar();
        if got < 0 {
          return -1, "";
        } else if got == 0 {
          if counter == 1 {
            return 0, "";
          }
          return counter, line;
        }
        line := line + [c];
        if c == '\n' {
          return counter, line;
        }
        counter := counter + 1;
      }
      r := counter;
    }
  }

  // ---------------------------------------------------------------------
  // fnReadLine
  // ---------------------------------------------------------------------

  datatype LineOutcome =
    | LineRead(text: seq<char>, ret: int)  // the stored line and the count returned
    | LineEof                             // returns 0: the end of the data before any byte
    | LineError                           // returns -1
  {
    function Result(): int
    {
      match this
      case LineRead(_, ret) => ret
      case LineEof => 0
      case LineError => -1
    }

    function Text(): seq<char>
    {
      if LineRead? then text else []
    }
  }

  datatype LineState = LineState(outcome: LineOutcome, buffered: seq<char>, pending: seq<ReadEvent>)

  /**
   * The loop of fnReadLine from the point where counter - 1 bytes (acc) are
   * stored: stop with the count when the buffer is full, fail on a read
   * error, return 0 on the end of the data before the first byte and the
   * count after it, and stop right after a newline.
   */
  function LineFrom(buffered: seq<char>, pending: seq<ReadEvent>, max: int, counter: int, acc: seq<char>): LineState
    decreases max - counter
  {
    if counter >= max then LineState(LineRead(acc, counter), buffered, pending)
    else match NextChar(buffered, pending)
      case ReadError(p) => LineState(LineError, [], p)
      case EndOfData(p) =>
        if counter == 1 then LineState(LineEof, [], p) else LineState(LineRead(acc, counter), [], p)
      case Got(c, b, p) =>
        if c == '\n' then LineState(LineRead(acc + [c], counter), b, p)
        else LineFrom(b, p, max, counter + 1, acc + [c])
  }

  predicate EndsWithNewline(t: seq<char>) { t != [] && t[|t| - 1] == '\n' }

  /**
   * What the loop guarantees from any point on: the stored line extends what
   * was stored, is at most max - 1 bytes long, holds a newline at most as its
   * last byte, and is followed in the stream by what is left; a line cut by
   * the end of the data is the whole rest of the stream. The count returned
   * is the length of the line, plus one unless the line ends in a newline.
   */
  lemma {:induction false} LineFromFacts(buffered: seq<char>, pending: seq<ReadEvent>, max: int, counter: int, acc: seq<char>)
    requires 1 <= counter && |acc| == counter - 1 && (counter <= max || counter == 1)
    requires '\n' !in acc
    ensures var s := LineFrom(buffered, pending, max, counter, acc);
            match s.outcome
            case LineRead(t, r) =>
              |acc| <= |t| && t[..|acc|] == acc && (|t| < max || t == []) &&
              (forall i :: 0 <= i < |t| - 1 ==> t[i] != '\n') &&
              r == (if EndsWithNewline(t) then |t| else |t| + 1) &&
              (if EndsWithNewline(t) || |t| >= max - 1
               then acc + Stream(buffered, pending) == t + Stream(s.buffered, s.pending)
               else acc + Stream(buffered, pending) == t && s.buffered == [])
            case LineEof =>
              counter == 1 && NextChar(buffered, pending).EndOfData? && Stream(buffered, pending) == []
            case LineError => s.buffered == []
    decreases max - counter
  {
    if counter < max {
      NextCharInOrder(buffered, pending);
      match NextChar(buffered, pending)
      case ReadError(p) =>
      case EndOfData(p) =>
        assert acc + Stream(buffered, pending) == acc;
      case Got(c, b, p) =>
        if c == '\n' {
          assert acc + Stream(buffered, pending) == (acc + [c]) + Stream(b, p);
        } else {
          assert '\n' !in acc + [c];
          LineFromFacts(b, p, max, counter + 1, acc + [c]);
          var s := LineFrom(b, p, max, counter + 1, acc + [c]);
          if s.outcome.LineRead? {
            var t := s.outcome.text;
            assert t[..|acc|] == (t[..|acc| + 1])[..|acc|];
          }
          assert acc + Stream(buffered, pending) == (acc + [c]) + Stream(b, p);
        }
    }
  }

  /**
   * fnReadLine returns 0 exactly when the data ends before its first byte,
   * -1 on a read error, and otherwise a positive count with the line stored.
   */
  lemma ReadLineResult(buffered: seq<char>, pending: seq<ReadEvent>, max: int)
    requires max > 1
    ensures var s := LineFrom(buffered, pending, max, 1, []);
            (s.outcome.Result() == 0 <==> NextChar(buffered, pending).EndOfData?) &&
            (s.outcome.Result() == -1 ==> s.outcome.LineError?) &&
            (s.outcome.Result() > 0 <==> s.outcome.LineRead?)
  {
    LineFromFacts(buffered, pending, max, 1, []);
  }

  /**
   * The lines fnReadLine returns, laid end to end, are the stream: a line
   * that ends in a newline or fills the buffer leaves the rest of the stream
   * for the next call, and a line cut by the end of the data is all of it.
   */
  lemma ReadLineSplitsStream(buffered: seq<char>, pending: seq<ReadEvent>, max: int)
    requires max >= 1
    ensures var s := LineFrom(buffered, pending, max, 1, []);
            s.outcome.LineRead? ==>
              var t := s.outcome.text;
              |t| <= max - 1 && (forall i :: 0 <= i < |t| - 1 ==> t[i] != '\n') &&
              (if EndsWithNewline(t) || |t| == max - 1
               then Stream(buffered, pending) == t + Stream(s.buffered, s.pending)
               else Stream(buffered, pending) == t)
  {
    LineFromFacts(buffered, pending, max, 1, []);
    assert [] + Stream(buffered, pending) == Stream(buffered, pending);
  }

  lemma StepBuffered(b: seq<char>, p: seq<ReadEvent>, max: int, counter: int, acc: seq<char>)
    requires b != [] && counter < max
    ensures LineFrom(b, p, max, counter, acc)
            == if b[0] == '\n' then LineState(LineRead(acc + [b[0]], counter), b[1..], p)
               else LineFrom(b[1..], p, max, counter + 1, acc + [b[0]])
  {
  }

  /** Two lines arriving in one chunk come out one after the other: the
      first call leaves the second line buffered, and the second call
      hands it out without reading from the socket. */
  lemma TwoLinesExample()
    ensures LineFrom([], [Chunk("1\r\n.\r\n")], 256, 1, []) == LineState(LineRead("1\r\n", 3), ".\r\n", [])
    ensures LineFrom(".\r\n", [], 256, 1, []) == LineState(LineRead(".\r\n", 3), [], [])
  {
    FirstOfTwoLines();
    SecondOfTwoLines();
  }

  lemma FirstOfTwoLines()
    ensures LineFrom([], [Chunk("1\r\n.\r\n")], 256, 1, []) == LineState(LineRead("1\r\n", 3), ".\r\n", [])
  {
    var b := "1\r\n.\r\n";
    assert [Chunk(b)][1..] == [];
    assert ReadOnce([Chunk(b)], 256) == ReadReturn(6, false, b, []);
    assert NextChar([], [Chunk(b)]) == Got('1', b[1..], []);
    assert [] + ['1'] == "1";
    assert LineFrom([], [Chunk(b)], 256, 1, []) == LineFrom(b[1..], [], 256, 2, "1");
    StepBuffered(b[1..], [], 256, 2, "1");
    assert b[1..][0] == '\r' && b[1..][1..] == b[2..] && "1" + ['\r'] == "1\r";
    assert LineFrom(b[1..], [], 256, 2, "1") == LineFrom(b[2..], [], 256, 3, "1\r");
    StepBuffered(b[2..], [], 256, 3, "1\r");
    assert b[2..][0] == '\n' && "1\r" + ['\n'] == "1\r\n";
    assert b[2..][1..] == ".\r\n";
  }

  lemma SecondOfTwoLines()
    ensures LineFrom(".\r\n", [], 256, 1, []) == LineState(LineRead(".\r\n", 3), [], [])
  {
    var c := ".\r\n";
    StepBuffered(c, [], 256, 1, []);
    assert c[0] == '.' && [] + ['.'] == "." && c[1..] == "\r\n";
    StepBuffered(c[1..], [], 256, 2, ".");
    assert c[1..][0] == '\r' && c[1..][1..] == "\n" && "." + ['\r'] == ".\r";
    StepBuffered(c[2..], [], 256, 3, ".\r");
    assert c[2..] == "\n" && ".\r" + ['\n'] == ".\r\n" && c[2..][1..] == [];
  }
}

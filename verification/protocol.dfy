/**
 * The client side of the CDDB server protocol (level 1): the session
 * states, the meaning of each response code in each state, the request
 * sent after an accepted response, and the lookup loop that reads the
 * server's replies until the entry itself follows.
 *
 * The server's replies are the results fnReadLine gives, one per call;
 * everything the client writes is appended to a log.
 */
module Protocol {
  import opened Text

  /** kszVersion */
  const Version: string := "0.90a"

  /** SESSION_CONNECTING .. SESSION_SENT_READ */
  datatype SessionState = Connecting | SentHello | SentQuery | SentRead
  {
    function Index(): nat
    {
      match this
      case Connecting => 0
      case SentHello => 1
      case SentQuery => 2
      case SentRead => 3
    }
  }

  /** What one call of fnReadLine gives: a line (a positive count), the end
      of the data (0), or a read error (-1). */
  datatype LineEvent = Line(text: string) | Closed | ReadFailed

  /** A connected socket: the replies still to come, everything written to
      it, and how many times it was closed. */
  class Connection {
    var incoming: seq<LineEvent>
    var sent: seq<string>
    var closes: nat

    constructor (replies: seq<LineEvent>)
      ensures incoming == replies && sent == [] && closes == 0
    {
      incoming, sent, closes := replies, [], 0;
    }

    /** fnReadLine on the socket: once the replies are exhausted, every
        further call reports the end of the data. */
    method ReadLine() returns (e: LineEvent)
      modifies this
      ensures e == Head(old(incoming)) && incoming == Tail(old(incoming))
      ensures sent == old(sent) && closes == old(closes)
    {
      e := Head(incoming);
      incoming := Tail(incoming);
    }

    method Write(msg: string)
      modifies this
      ensures sent == old(sent) + [msg]
      ensures incoming == old(incoming) && closes == old(closes)
    {
      sent := sent + [msg];
    }

    method Close()
      modifies this
      ensures closes == old(closes) + 1
      ensures incoming == old(incoming) && sent == old(sent)
    {
      closes := closes + 1;
    }
  }

  function Head(events: seq<LineEvent>): LineEvent
  {
    if events == [] then Closed else events[0]
  }

  function Tail(events: seq<LineEvent>): seq<LineEvent>
  {
    if events == [] then [] else events[1..]
  }

  // ---------------------------------------------------------------------
  // Response codes
  // ---------------------------------------------------------------------

  /** What a response code means in a state: send the next request, read
      the entry that follows (fnCDDB_DoCDDBLookup returns 0), or give up
      with a lookup result. */
  datatype Verdict = Proceed | EntryFollows | GiveUp(rv: int)

  /** The response-code switch of fnCDDB_DoCDDBLookup. */
  function Classify(state: SessionState, code: int): Verdict
  {
    match state
    case Connecting =>
      if code == 200 || code == 201 then Proceed
      else if code == 432 || code == 433 || code == 434 then GiveUp(-3)
      else GiveUp(-2)
    case SentHello =>
      if code == 200 || code == 402 then Proceed
      else if code == 431 then GiveUp(-3)
      else GiveUp(-2)
    case SentQuery =>
      if code == 200 then Proceed
      else if code == 409 then GiveUp(-4)
      else GiveUp(-2)
    case SentRead =>
      if code == 210 then EntryFollows
      else if code == 409 then GiveUp(-4)
      else GiveUp(-2)
  }

  /**
   * The codes each state accepts, and what every other code leads to: a
   * refused connection or handshake ends the lookup with -3, a missing
   * handshake with -4 (only after the query or the read), and any other
   * code, listed or not, with -2. Only 210 after the read lets the entry
   * be read.
   */
  lemma ClassifyTable(state: SessionState, code: int)
    ensures Classify(state, code) == Proceed <==>
              (state == Connecting && (code == 200 || code == 201)) ||
              (state == SentHello && (code == 200 || code == 402)) ||
              (state == SentQuery && code == 200)
    ensures Classify(state, code) == EntryFollows <==> state == SentRead && code == 210
    ensures Classify(state, code) == GiveUp(-3) <==>
              (state == Connecting && 432 <= code <= 434) || (state == SentHello && code == 431)
    ensures Classify(state, code) == GiveUp(-4) <==>
              (state == SentQuery || state == SentRead) && code == 409
    ensures Classify(state, code).GiveUp? ==> Classify(state, code).rv in {-2, -3, -4}
  {
  }

  // ---------------------------------------------------------------------
  // Requests: fnCDDB_SendRequest
  // ---------------------------------------------------------------------

  /** getlogin(), or "unknown" when it fails. */
  function UserName(login: Option<string>): string
  {
    if login.Some? then login.value else "unknown"
  }

  /** gethostname(), or "unknown.hostname" when it fails. */
  function HostName(host: Option<string>): string
  {
    if host.Some? then host.value else "unknown.hostname"
  }

  /** The greeting, as much of it as fits the 256-byte send buffer. */
  function HelloCommand(login: Option<string>, host: Option<string>): (s: string)
    ensures |s| <= 255
  {
    Truncate("cddb hello " + UserName(login) + " " + HostName(host) + " DAEX " + Version + "\r\n", 255)
  }

  /** The entry the server matched: its category and disc identifier. */
  datatype Match = Match(category: string, discId: string)

  /** sscanf(reply, "%*u %24s %8s %*s\r\n", ...) == 2: a number, then a
      category of at most 24 characters and an identifier of at most 8. */
  function ScanQueryReply(reply: string): (m: Option<Match>)
    ensures m.Some? ==> 1 <= |m.value.category| <= 24 && 1 <= |m.value.discId| <= 8
  {
    match ScanNumber(reply)
    case None => None
    case Some((_, afterCode)) =>
      match ScanWord(afterCode, 24)
      case None => None
      case Some((category, afterCategory)) =>
        match ScanWord(afterCategory, 8)
        case None => None
        case Some((discId, _)) => Some(Match(category, discId))
  }

  /** The category and identifier are the second and third words of a
      reply "<code> <category> <identifier>...". */
  lemma ScanQueryReplyWords(code: nat, cat: string, id: string, rest: string)
    requires 1 <= |cat| <= 24 && 1 <= |id| <= 8
    requires forall i :: 0 <= i < |cat| ==> !IsSpace(cat[i])
    requires forall i :: 0 <= i < |id| ==> !IsSpace(id[i])
    requires rest == [] || IsSpace(rest[0])
    ensures ScanQueryReply(Decimal(code) + " " + cat + " " + id + rest) == Some(Match(cat, id))
  {
    var afterId := " " + id + rest;
    var afterCode := " " + cat + afterId;
    ReplyShape(Decimal(code), cat, id, rest);
    ScanDecimal(code, afterCode);
    ScanWordOf(cat, 24, afterId);
    ScanWordOf(id, 8, rest);
    ScanQueryReplySteps(Decimal(code) + afterCode, afterCode, afterId, code, cat, id, rest);
  }

  lemma ReplyShape(number: string, cat: string, id: string, rest: string)
    ensures number + " " + cat + " " + id + rest == number + (" " + cat + (" " + id + rest))
  {
  }

  lemma ScanQueryReplySteps(reply: string, afterCode: string, afterId: string,
                            code: int, cat: string, id: string, rest: string)
    requires ScanNumber(reply) == Some((code, afterCode))
    requires ScanWord(afterCode, 24) == Some((cat, afterId))
    requires ScanWord(afterId, 8) == Some((id, rest))
    ensures ScanQueryReply(reply) == Some(Match(cat, id))
  {
  }

  function ReadCommand(m: Match): string
  {
    "cddb read " + m.category + " " + m.discId + "\r\n"
  }

  /** A request sent: the line written, the state after it, and the match
      learnt from the reply, if any. */
  datatype Request = Request(command: string, next: SessionState, learnt: Option<Match>)

  /** The request fnCDDB_SendRequest sends in each state, or None when it
      fails: the query does not fit the send buffer with its CR LF, the
      reply to the query cannot be scanned, or the read was already sent. */
  function NextRequest(state: SessionState, reply: string, login: Option<string>, host: Option<string>, query: string): Option<Request>
  {
    match state
    case Connecting => Some(Request(HelloCommand(login, host), SentHello, None))
    case SentHello =>
      if |query| + 3 > 256 then None else Some(Request(query + "\r\n", SentQuery, None))
    case SentQuery =>
      (match ScanQueryReply(reply)
       case None => None
       case Some(m) => Some(Request(ReadCommand(m), SentRead, Some(m))))
    case SentRead => None
  }

  /**
   * Each request moves the session exactly one state forward, and it fails
   * exactly when the query is too long for the send buffer, the reply to
   * the query does not carry a category and an identifier, or the read has
   * already been sent.
   */
  lemma NextRequestAdvances(state: SessionState, reply: string, login: Option<string>, host: Option<string>, query: string)
    ensures var r := NextRequest(state, reply, login, host, query);
            (r.Some? ==> r.value.next.Index() == state.Index() + 1) &&
            (r.None? <==> (state == SentHello && |query| + 3 > 256) ||
                          (state == SentQuery && ScanQueryReply(reply).None?) ||
                          state == SentRead) &&
            (r.Some? ==> (r.value.learnt.Some? <==> state == SentQuery))
  {
    match state
    case Connecting =>
    case SentHello =>
    case SentQuery =>
    case SentRead =>
  }

  /** fnCDDB_SendRequest: 0 and the new state after sending the request for
      the current state, -1 with nothing sent when there is none. */
  method SendRequest(conn: Connection, state: SessionState, reply: string, login: Option<string>, host: Option<string>, query: string)
    returns (rv: int, next: SessionState, learnt: Option<Match>)
    modifies conn
    ensures match NextRequest(state, reply, login, host, query)
            case None => rv == -1 && next == state && learnt == None && conn.sent == old(conn.sent)
            case Some(r) => rv == 0 && next == r.next && learnt == r.learnt && conn.sent == old(conn.sent) + [r.command]
    ensures conn.incoming == old(conn.incoming) && conn.closes == old(conn.closes)
  {
    next, learnt := state, None;
    match state {
      case Connecting =>
        var buffer := Truncate("cddb hello " + UserName(login) + " " + HostName(host) + " DAEX " + Version + "\r\n", 255);
        conn.Write(buffer);
        next := SentHello;
      case SentHello =>
        if |query| + 3 > 256 {
          return -1, state, None;
        }
        conn.Write(query + "\r\n");
        next := SentQuery;
      case SentQuery =>
        var scanned := ScanQueryReply(reply);
        if scanned.None? {
          return -1, state, None;
        }
        var m := scanned.value;
        conn.Write("cddb read " + m.category + " " + m.discId + "\r\n");
        next, learnt := SentRead, Some(m);
      case SentRead =>
        return -1, state, None;
    }
    rv := 0;
  }

  // ---------------------------------------------------------------------
  // The lookup loop: fnCDDB_DoCDDBLookup
  // ---------------------------------------------------------------------

  /** The lookup's result code, the state reached, the commands sent, the
      match learnt and the replies left unread. */
  datatype LookupResult = LookupResult(rv: int, state: SessionState, sent: seq<string>, learnt: Option<Match>, rest: seq<LineEvent>)

  /**
   * Read replies until one settles the lookup: a read error or a line
   * without a newline gives -2, the end of the data -3; a line that does not
   * start with a number is skipped; otherwise its code is classified in the
   * current state and, when accepted, the next request is sent.
   */
  function Lookup(replies: seq<LineEvent>, state: SessionState, learnt: Option<Match>,
                  login: Option<string>, host: Option<string>, query: string): LookupResult
    decreases |replies|, 1
  {
    if replies == [] then LookupResult(-3, state, [], learnt, [])
    else LookupStep(replies[0], replies[1..], state, learnt, login, host, query)
  }

  /** One pass of the loop: the reply just read, then the rest. */
  function LookupStep(reply: LineEvent, rest: seq<LineEvent>, state: SessionState, learnt: Option<Match>,
                      login: Option<string>, host: Option<string>, query: string): LookupResult
    decreases |rest| + 1, 0
  {
    match reply
    case Closed => LookupResult(-3, state, [], learnt, rest)
    case ReadFailed => LookupResult(-2, state, [], learnt, rest)
    case Line(t) =>
      if '\n' !in t then LookupResult(-2, state, [], learnt, rest)
      else match ScanNumber(t)
        case None => Lookup(rest, state, learnt, login, host, query)
        case Some((code, _)) =>
          match Classify(state, code)
          case EntryFollows => LookupResult(0, state, [], learnt, rest)
          case GiveUp(rv) => LookupResult(rv, state, [], learnt, rest)
          case Proceed =>
            match NextRequest(state, t, login, host, query)
            case None => LookupResult(-2, state, [], learnt, rest)
            case Some(r) =>
              Prepend([r.command], Lookup(rest, r.next, if r.learnt.Some? then r.learnt else learnt, login, host, query))
  }

  /** A result with some commands sent before it. */
  function Prepend(sent: seq<string>, r: LookupResult): LookupResult
  {
    r.(sent := sent + r.sent)
  }

  lemma LookupUnfold(replies: seq<LineEvent>, state: SessionState, learnt: Option<Match>,
                     login: Option<string>, host: Option<string>, query: string)
    ensures Lookup(replies, state, learnt, login, host, query)
            == LookupStep(Head(replies), Tail(replies), state, learnt, login, host, query)
  {
  }

  lemma StepSkips(t: string, rest: seq<LineEvent>, state: SessionState, learnt: Option<Match>,
                  login: Option<string>, host: Option<string>, query: string)
    requires '\n' in t && ScanNumber(t).None?
    ensures LookupStep(Line(t), rest, state, learnt, login, host, query) == Lookup(rest, state, learnt, login, host, query)
  {
  }

  lemma StepSettles(t: string, rest: seq<LineEvent>, state: SessionState, learnt: Option<Match>,
                    login: Option<string>, host: Option<string>, query: string)
    requires '\n' in t && ScanNumber(t).Some?
    requires Classify(state, ScanNumber(t).value.0) != Proceed
    ensures var v := Classify(state, ScanNumber(t).value.0);
            LookupStep(Line(t), rest, state, learnt, login, host, query)
            == LookupResult(if v.GiveUp? then v.rv else 0, state, [], learnt, rest)
  {
  }

  lemma StepSends(t: string, rest: seq<LineEvent>, state: SessionState, learnt: Option<Match>,
                  login: Option<string>, host: Option<string>, query: string)
    requires '\n' in t && ScanNumber(t).Some?
    requires Classify(state, ScanNumber(t).value.0) == Proceed
    ensures var req := NextRequest(state, t, login, host, query);
            LookupStep(Line(t), rest, state, learnt, login, host, query)
            == if req.None? then LookupResult(-2, state, [], learnt, rest)
               else Prepend([req.value.command],
                            Lookup(rest, req.value.next, if req.value.learnt.Some? then req.value.learnt else learnt, login, host, query))
  {
  }

  lemma PrependTwice(a: seq<string>, b: seq<string>, r: LookupResult)
    ensures Prepend(a, Prepend(b, r)) == Prepend(a + b, r)
  {
    assert a + (b + r.sent) == (a + b) + r.sent;
  }

  /**
   * One pass of fnCDDB_DoCDDBLookup's loop: read a reply and either settle
   * the lookup with its result code, or go on (after a skipped line or a
   * request sent) in the state and with the match it leaves.
   */
  method LookupPass(conn: Connection, state: SessionState, learnt: Option<Match>,
                    login: Option<string>, host: Option<string>, query: string)
    returns (settled: bool, rv: int, next: SessionState, learnt': Option<Match>, ghost sent: seq<string>)
    modifies conn
    ensures conn.sent == old(conn.sent) + sent && conn.closes == old(conn.closes)
    ensures var whole := Lookup(old(conn.incoming), state, learnt, login, host, query);
            if settled then sent == [] && whole == LookupResult(rv, state, [], learnt, conn.incoming)
            else whole == Prepend(sent, Lookup(conn.incoming, next, learnt', login, host, query)) &&
                 |conn.incoming| < |old(conn.incoming)|
  {
    LookupUnfold(conn.incoming, state, learnt, login, host, query);
    settled, next, learnt', sent := true, state, learnt, [];
    var e := conn.ReadLine();
    if e.ReadFailed? {
      return true, -2, state, learnt, [];
    } else if e.Closed? {
      return true, -3, state, learnt, [];
    }
    var line := e.text;
    if '\n' !in line {
      return true, -2, state, learnt, [];
    }
    var scanned := ScanNumber(line);
    if scanned.None? {
      StepSkips(line, conn.incoming, state, learnt, login, host, query);
      assert Lookup(conn.incoming, state, learnt, login, host, query).sent == [] + Lookup(conn.incoming, state, learnt, login, host, query).sent;
      return false, 0, state, learnt, [];
    }
    var verdict := Classify(state, scanned.value.0);
    if verdict != Proceed {
      StepSettles(line, conn.incoming, state, learnt, login, host, query);
      rv := if verdict.GiveUp? then verdict.rv else 0;
      return;
    }
    StepSends(line, conn.incoming, state, learnt, login, host, query);
    ghost var request := NextRequest(state, line, login, host, query);
    var sendResult, got;
    sendResult, next, got := SendRequest(conn, state, line, login, host, query);
    if sendResult < 0 {
      return true, -2, state, learnt, [];
    }
    settled, rv, sent := false, 0, [request.value.command];
    learnt' := if got.Some? then got else learnt;
  }

  lemma SentGrows(start: seq<string>, a: seq<string>, b: seq<string>)
    ensures (start + a) + b == start + (a + b)
  {
  }

  /** fnCDDB_DoCDDBLookup, with the session state passed in and out. */
  method DoCDDBLookup(conn: Connection, state: SessionState, login: Option<string>, host: Option<string>, query: string)
    returns (rv: int, final: SessionState, learnt: Option<Match>)
    modifies conn
    ensures var r := Lookup(old(conn.incoming), state, None, login, host, query);
            rv == r.rv && final == r.state && learnt == r.learnt &&
            conn.incoming == r.rest && conn.sent == old(conn.sent) + r.sent
    ensures conn.closes == old(conn.closes)
  {
    rv, final, learnt := LookupLoop(conn, state, None, login, host, query);
  }

  /** The loop of fnCDDB_DoCDDBLookup from a given state and match. */
  method LookupLoop(conn: Connection, state: SessionState, known: Option<Match>,
                    login: Option<string>, host: Option<string>, query: string)
    returns (rv: int, final: SessionState, learnt: Option<Match>)
    modifies conn
    ensures var r := Lookup(old(conn.incoming), state, known, login, host, query);
            rv == r.rv && final == r.state && learnt == r.learnt &&
            conn.incoming == r.rest && conn.sent == old(conn.sent) + r.sent
    ensures conn.closes == old(conn.closes)
  {
    final, learnt := state, known;
    ghost var sentSoFar: seq<string> := [];
    ghost var whole := Lookup(old(conn.incoming), state, known, login, host, query);
    while true
      invariant conn.sent == old(conn.sent) + sentSoFar && conn.closes == old(conn.closes)
      invariant whole == Prepend(sentSoFar, Lookup(conn.incoming, final, learnt, login, host, query))
      decreases |conn.incoming|
    {
      var settled, code, next, learnt', sent := LookupPass(conn, final, learnt, login, host, query);
      SentGrows(old(conn.sent), sentSoFar, sent);
      if settled {
        return code, final, learnt;
      }
      PrependTwice(sentSoFar, sent, Lookup(conn.incoming, next, learnt', login, host, query));
      sentSoFar := sentSoFar + sent;
      final, learnt := next, learnt';
    }
  }

  // ---------------------------------------------------------------------
  // What the lookup guarantees
  // ---------------------------------------------------------------------

  /** The command sent from the state with index k. */
  function Command(k: nat, learnt: Option<Match>, login: Option<string>, host: Option<string>, query: string): string
  {
    if k == 0 then HelloCommand(login, host)
    else if k == 1 then query + "\r\n"
    else if learnt.Some? then ReadCommand(learnt.value)
    else ""
  }

  /** The commands sent when moving from state index lo to state index hi. */
  function Commands(lo: nat, hi: nat, learnt: Option<Match>, login: Option<string>, host: Option<string>, query: string): seq<string>
    decreases hi - lo
  {
    if lo >= hi then [] else [Command(lo, learnt, login, host, query)] + Commands(lo + 1, hi, learnt, login, host, query)
  }

  /**
   * The lookup only moves forward: it ends in a state at or after the one it
   * started in, having sent exactly the commands of the states it passed,
   * in order. The match is learnt on passing the query and kept; the lookup
   * succeeds only after the read was sent, and its result is one of 0, -2,
   * -3 and -4.
   */
  ghost predicate Progressed(state: SessionState, learnt: Option<Match>, r: LookupResult,
                             login: Option<string>, host: Option<string>, query: string)
  {
    state.Index() <= r.state.Index() &&
    r.sent == Commands(state.Index(), r.state.Index(), r.learnt, login, host, query) &&
    (state.Index() <= 2 < r.state.Index() ==> r.learnt.Some?) &&
    (r.state.Index() <= 2 || state == SentRead ==> r.learnt == learnt) &&
    (r.rv == 0 ==> r.state == SentRead) &&
    r.rv in {0, -2, -3, -4}
  }

  /** Sending one request keeps the lookup's progress. */
  lemma ProgressAfterRequest(state: SessionState, t: string, learnt: Option<Match>, r: LookupResult,
                             login: Option<string>, host: Option<string>, query: string)
    requires NextRequest(state, t, login, host, query).Some?
    requires var req := NextRequest(state, t, login, host, query).value;
             Progressed(req.next, if req.learnt.Some? then req.learnt else learnt, r, login, host, query)
    ensures var req := NextRequest(state, t, login, host, query).value;
            Progressed(state, learnt, Prepend([req.command], r), login, host, query)
  {
    NextRequestAdvances(state, t, login, host, query);
    var req := NextRequest(state, t, login, host, query).value;
    assert req.command == Command(state.Index(), r.learnt, login, host, query);
  }

  /** A reply that settles the lookup in the current state keeps its progress. */
  lemma ProgressSettled(state: SessionState, learnt: Option<Match>, v: Verdict, rest: seq<LineEvent>,
                        login: Option<string>, host: Option<string>, query: string)
    requires v != Proceed && (v == EntryFollows ==> state == SentRead)
    requires v.GiveUp? ==> v.rv in {-2, -3, -4}
    ensures Progressed(state, learnt, LookupResult(if v.GiveUp? then v.rv else 0, state, [], learnt, rest), login, host, query)
  {
  }

  lemma {:induction false} LookupProgress(replies: seq<LineEvent>, state: SessionState, learnt: Option<Match>,
                                          login: Option<string>, host: Option<string>, query: string)
    ensures Progressed(state, learnt, Lookup(replies, state, learnt, login, host, query), login, host, query)
    decreases |replies|, 1
  {
    if replies != [] && replies[0].Line? && '\n' in replies[0].text {
      LookupUnfold(replies, state, learnt, login, host, query);
      LineProgress(replies[0].text, replies[1..], state, learnt, login, host, query);
    }
  }

  /** The progress of the lookup from a complete reply line on. */
  lemma {:induction false} LineProgress(t: string, rest: seq<LineEvent>, state: SessionState, learnt: Option<Match>,
                                        login: Option<string>, host: Option<string>, query: string)
    requires '\n' in t
    ensures Progressed(state, learnt, LookupStep(Line(t), rest, state, learnt, login, host, query), login, host, query)
    decreases |rest| + 1, 0
  {
    if ScanNumber(t).None? {
      StepSkips(t, rest, state, learnt, login, host, query);
      LookupProgress(rest, state, learnt, login, host, query);
    } else {
      var code := ScanNumber(t).value.0;
      ClassifyTable(state, code);
      if Classify(state, code) != Proceed {
        StepSettles(t, rest, state, learnt, login, host, query);
        ProgressSettled(state, learnt, Classify(state, code), rest, login, host, query);
      } else {
        StepSends(t, rest, state, learnt, login, host, query);
        var req := NextRequest(state, t, login, host, query);
        if req.Some? {
          var learnt' := if req.value.learnt.Some? then req.value.learnt else learnt;
          LookupProgress(rest, req.value.next, learnt', login, host, query);
          ProgressAfterRequest(state, t, learnt, Lookup(rest, req.value.next, learnt', login, host, query), login, host, query);
        }
      }
    }
  }

  /**
   * A successful lookup from a fresh connection has sent exactly the
   * greeting, the query with its CR LF, and the read of the category and
   * identifier the server matched.
   */
  lemma LookupSuccess(replies: seq<LineEvent>, login: Option<string>, host: Option<string>, query: string)
    ensures var r := Lookup(replies, Connecting, None, login, host, query);
            r.rv == 0 ==>
              r.state == SentRead && r.learnt.Some? &&
              r.sent == [HelloCommand(login, host), query + "\r\n", ReadCommand(r.learnt.value)]
  {
    LookupProgress(replies, Connecting, None, login, host, query);
    var r := Lookup(replies, Connecting, None, login, host, query);
    assert Progressed(Connecting, None, r, login, host, query);
    if r.rv == 0 {
      assert Commands(3, 3, r.learnt, login, host, query) == [];
      assert Commands(2, 3, r.learnt, login, host, query) == [ReadCommand(r.learnt.value)];
      assert Commands(1, 3, r.learnt, login, host, query) == [query + "\r\n", ReadCommand(r.learnt.value)];
    }
  }

  /** A reply that does not start with a number is skipped. */
  lemma SkipsUnnumberedLine(t: string, rest: seq<LineEvent>, state: SessionState, learnt: Option<Match>,
                            login: Option<string>, host: Option<string>, query: string)
    requires '\n' in t && ScanNumber(t).None?
    ensures Lookup([Line(t)] + rest, state, learnt, login, host, query) == Lookup(rest, state, learnt, login, host, query)
  {
    assert ([Line(t)] + rest)[1..] == rest;
  }
}

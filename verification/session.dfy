/**
 * A whole CDDB session: the lookup, renegotiated while the server reports
 * that it did not receive the handshake; the entry read after it; whether
 * "quit" is sent before the connection is closed; and, at the top, the
 * storing of the file names derived from the titles.
 */
module Session {
  import opened Text
  import opened Toc
  import opened Protocol
  import opened Entry
  import opened Filenames

  /** The last value of the negotiation counter that still allows another
      lookup: the counter starts at 1 and is post-incremented. */
  const MaxRenegotiation: nat := 5

  /** The outcome of fnCDDB_SessionWrapper: its result code, whether
      "quit" is to be sent, how many lookups were made, the last lookup's
      result, the entry reader's result (none when it was not reached),
      every command sent, the entry the last lookup matched, the titles
      read, and the replies left unread. */
  datatype SessionResult = SessionResult(rv: int, quit: bool, attempts: nat, lastLookup: int, entry: Option<int>,
                                         sent: seq<string>, learnt: Option<Match>, disc: Option<string>,
                                         titles: seq<string>, rest: seq<LineEvent>)

  /**
   * The session from the lookup with the given counter value on: a lookup
   * from the connecting state; on -4 another one while the counter, before
   * its increment, is at most 5; on any other failure -1; after a
   * successful lookup the entry, whose failure is -1 as well. "quit" is
   * left out exactly when the lookup or the entry reader found the
   * connection closed (-3).
   */
  function Negotiate(replies: seq<LineEvent>, n: nat, counter: nat,
                     login: Option<string>, host: Option<string>, query: string): SessionResult
    requires 1 <= counter <= MaxRenegotiation + 1
    decreases MaxRenegotiation + 1 - counter, 1
  {
    AfterLookup(Lookup(replies, Connecting, None, login, host, query), n, counter, login, host, query)
  }

  /** The session once a lookup has given the result l. */
  function AfterLookup(l: LookupResult, n: nat, counter: nat,
                       login: Option<string>, host: Option<string>, query: string): SessionResult
    requires 1 <= counter <= MaxRenegotiation + 1
    decreases MaxRenegotiation + 1 - counter, 0
  {
    if l.rv < 0 then
      if l.rv == -4 && counter <= MaxRenegotiation then
        AfterSent(l.sent, Negotiate(l.rest, n, counter + 1, login, host, query))
      else SessionResult(-1, l.rv != -3, counter, l.rv, None, l.sent, l.learnt, None, [], l.rest)
    else
      var e := EntryFrom(l.rest, n, None, []);
      SessionResult(if e.rv < 0 then -1 else 0, e.rv != -3, counter, l.rv, Some(e.rv), l.sent, l.learnt,
                    e.disc, e.titles, e.rest)
  }

  /** The session's outcome with some commands sent before it. */
  function AfterSent(sent: seq<string>, r: SessionResult): SessionResult
  {
    r.(sent := sent + r.sent)
  }

  /** fnCDDB_SessionWrapper's outcome on the given replies for a disc of
      n tracks. */
  function Wrapper(replies: seq<LineEvent>, n: nat, login: Option<string>, host: Option<string>, query: string): SessionResult
  {
    Negotiate(replies, n, 1, login, host, query)
  }

  // ---------------------------------------------------------------------
  // What the session guarantees
  // ---------------------------------------------------------------------

  /**
   * At most six lookups are made; a lookup that ends in -4 is the last one
   * only when it was the sixth; "quit" is left out exactly when the last
   * lookup or the entry reader returned -3; and the session succeeds
   * exactly when the last lookup and the entry reader did, in which case
   * every one of the n titles was read.
   */
  lemma {:induction false} NegotiationOutcome(replies: seq<LineEvent>, n: nat, counter: nat,
                                              login: Option<string>, host: Option<string>, query: string)
    requires 1 <= counter <= MaxRenegotiation + 1
    ensures var r := Negotiate(replies, n, counter, login, host, query);
            counter <= r.attempts <= MaxRenegotiation + 1 &&
            (r.lastLookup == -4 ==> r.attempts == MaxRenegotiation + 1) &&
            (!r.quit <==> r.lastLookup == -3 || r.entry == Some(-3)) &&
            (r.entry.Some? <==> r.lastLookup == 0) &&
            (r.rv == 0 <==> r.entry == Some(0)) &&
            (r.rv == 0 ==> |r.titles| == n) &&
            r.rv in {0, -1}
    decreases MaxRenegotiation + 1 - counter
  {
    var l := Lookup(replies, Connecting, None, login, host, query);
    LookupProgress(replies, Connecting, None, login, host, query);
    if l.rv == -4 && counter <= MaxRenegotiation {
      NegotiationOutcome(l.rest, n, counter + 1, login, host, query);
    } else if l.rv >= 0 {
      EntrySucceeds(l.rest, n);
    }
  }

  /** Every lookup but the last ended in -4: the renegotiation happens only
      when the server did not receive the handshake. */
  lemma {:induction false} RenegotiatesOnlyOnNoHandshake(replies: seq<LineEvent>, n: nat, counter: nat,
                                                        login: Option<string>, host: Option<string>, query: string)
    requires 1 <= counter <= MaxRenegotiation + 1
    ensures var r := Negotiate(replies, n, counter, login, host, query);
            var l := Lookup(replies, Connecting, None, login, host, query);
            r.attempts > counter ==> counter <= MaxRenegotiation && l.rv == -4 && r.sent == l.sent + Negotiate(l.rest, n, counter + 1, login, host, query).sent
  {
  }

  /** A successful session has sent, for its last lookup, the greeting,
      the query and the read of the entry matched, after the commands of
      the renegotiated lookups. */
  lemma {:induction false} SessionSends(replies: seq<LineEvent>, n: nat, counter: nat,
                                        login: Option<string>, host: Option<string>, query: string)
    requires 1 <= counter <= MaxRenegotiation + 1
    ensures var r := Negotiate(replies, n, counter, login, host, query);
            r.rv == 0 ==>
              r.learnt.Some? && |r.sent| >= 3 &&
              r.sent[|r.sent| - 3..] == [HelloCommand(login, host), query + "\r\n", ReadCommand(r.learnt.value)]
    decreases MaxRenegotiation + 1 - counter
  {
    var l := Lookup(replies, Connecting, None, login, host, query);
    if l.rv == -4 && counter <= MaxRenegotiation {
      SessionSends(l.rest, n, counter + 1, login, host, query);
      NegotiateRetries(replies, n, counter, login, host, query);
      var r' := Negotiate(l.rest, n, counter + 1, login, host, query);
      if r'.rv == 0 {
        assert (l.sent + r'.sent)[|l.sent + r'.sent| - 3..] == r'.sent[|r'.sent| - 3..];
      }
    } else if l.rv >= 0 {
      NegotiateReads(replies, n, counter, login, host, query);
      LookupProgress(replies, Connecting, None, login, host, query);
      LookupSuccess(replies, login, host, query);
    } else {
      NegotiateFails(replies, n, counter, login, host, query);
    }
  }

  /** The session when the lookup gives up after a missed handshake and
      the counter allows another one. */
  lemma NegotiateRetries(replies: seq<LineEvent>, n: nat, counter: nat,
                         login: Option<string>, host: Option<string>, query: string)
    requires 1 <= counter <= MaxRenegotiation
    requires Lookup(replies, Connecting, None, login, host, query).rv == -4
    ensures var l := Lookup(replies, Connecting, None, login, host, query);
            Negotiate(replies, n, counter, login, host, query)
            == AfterSent(l.sent, Negotiate(l.rest, n, counter + 1, login, host, query))
  {
  }

  /** The session when the lookup fails for good. */
  lemma NegotiateFails(replies: seq<LineEvent>, n: nat, counter: nat,
                       login: Option<string>, host: Option<string>, query: string)
    requires 1 <= counter <= MaxRenegotiation + 1
    requires var l := Lookup(replies, Connecting, None, login, host, query);
             l.rv < 0 && !(l.rv == -4 && counter <= MaxRenegotiation)
    ensures var l := Lookup(replies, Connecting, None, login, host, query);
            Negotiate(replies, n, counter, login, host, query)
            == SessionResult(-1, l.rv != -3, counter, l.rv, None, l.sent, l.learnt, None, [], l.rest)
  {
  }

  /** The session when the lookup succeeds. */
  lemma NegotiateReads(replies: seq<LineEvent>, n: nat, counter: nat,
                       login: Option<string>, host: Option<string>, query: string)
    requires 1 <= counter <= MaxRenegotiation + 1
    requires Lookup(replies, Connecting, None, login, host, query).rv >= 0
    ensures var l := Lookup(replies, Connecting, None, login, host, query);
            var e := EntryFrom(l.rest, n, None, []);
            Negotiate(replies, n, counter, login, host, query)
            == SessionResult(if e.rv < 0 then -1 else 0, e.rv != -3, counter, l.rv, Some(e.rv), l.sent, l.learnt,
                             e.disc, e.titles, e.rest)
  {
  }

  lemma AfterSentTwice(a: seq<string>, b: seq<string>, r: SessionResult)
    ensures AfterSent(a, AfterSent(b, r)) == AfterSent(a + b, r)
  {
    assert a + (b + r.sent) == (a + b) + r.sent;
  }

  /** The session's result once its lookup succeeded and rest is the reply
      to the read command: that of the entry read from it. */
  ghost predicate Reading(w: SessionResult, rest: seq<LineEvent>, n: nat)
  {
    var e := EntryFrom(rest, n, None, []);
    w.rv == (if e.rv < 0 then -1 else 0) && w.quit == (e.rv != -3) &&
    w.disc == e.disc && w.titles == e.titles && w.rest == e.rest
  }

  /** The session's result once its lookup failed for good. */
  ghost predicate Failing(w: SessionResult, rest: seq<LineEvent>, quit: bool)
  {
    w.rv == -1 && w.quit == quit && w.disc == None && w.titles == [] && w.rest == rest
  }

  // ---------------------------------------------------------------------
  // fnCDDB_SessionWrapper
  // ---------------------------------------------------------------------

  /**
   * One lookup of fnCDDB_SessionWrapper's loop, at a given value of its
   * counter, and what it decides about the session from there on.
   */
  method LookupAttempt(conn: Connection, n: nat, counter: nat, login: Option<string>, host: Option<string>, query: string)
    returns (lookup: int, ghost sent: seq<string>)
    requires 1 <= counter <= MaxRenegotiation + 1
    modifies conn
    ensures conn.sent == old(conn.sent) + sent && conn.closes == old(conn.closes)
    ensures var r := Negotiate(old(conn.incoming), n, counter, login, host, query);
            if lookup == -4 && counter <= MaxRenegotiation then
              r == AfterSent(sent, Negotiate(conn.incoming, n, counter + 1, login, host, query))
            else if lookup < 0 then
              Failing(r, conn.incoming, lookup != -3) && r.sent == sent
            else
              Reading(r, conn.incoming, n) && r.sent == sent
  {
    ghost var replies := conn.incoming;
    ghost var l := Lookup(replies, Connecting, None, login, host, query);
    var final, learnt;
    lookup, final, learnt := DoCDDBLookup(conn, Connecting, login, host, query);
    sent := l.sent;
    if lookup == -4 && counter <= MaxRenegotiation {
      NegotiateRetries(replies, n, counter, login, host, query);
    } else if lookup < 0 {
      NegotiateFails(replies, n, counter, login, host, query);
    } else {
      NegotiateReads(replies, n, counter, login, host, query);
    }
  }

  /**
   * The lookup part of fnCDDB_SessionWrapper: lookups from a fresh
   * connecting state, again while the handshake fails and the counter
   * allows, until one settles. When one succeeded (read), the reply to the
   * read command is what is left on the connection; otherwise the
   * session's result is decided.
   */
  method NegotiateLookups(conn: Connection, n: nat, login: Option<string>, host: Option<string>, query: string)
    returns (read: bool, quit: bool)
    modifies conn
    ensures var w := Wrapper(old(conn.incoming), n, login, host, query);
            conn.sent == old(conn.sent) + w.sent && conn.closes == old(conn.closes) &&
            (read ==> quit && Reading(w, conn.incoming, n)) &&
            (!read ==> Failing(w, conn.incoming, quit))
  {
    quit := true;
    var counter := 1;
    ghost var sentSoFar: seq<string> := [];
    ghost var whole := Wrapper(conn.incoming, n, login, host, query);
    while true
      invariant 1 <= counter <= MaxRenegotiation + 1 && quit
      invariant whole == AfterSent(sentSoFar, Negotiate(conn.incoming, n, counter, login, host, query))
      invariant conn.sent == old(conn.sent) + sentSoFar && conn.closes == old(conn.closes)
      decreases MaxRenegotiation + 1 - counter
    {
      ghost var prior := sentSoFar;
      ghost var r := Negotiate(conn.incoming, n, counter, login, host, query);
      var lookup, sent := LookupAttempt(conn, n, counter, login, host, query);
      SentGrows(old(conn.sent), prior, sent);
      sentSoFar := prior + sent;
      if lookup == -4 && counter <= MaxRenegotiation {
        counter := counter + 1;
        AfterSentTwice(prior, sent, Negotiate(conn.incoming, n, counter, login, host, query));
        continue;
      }
      if lookup == -3 {
        quit := false;
      }
      SettledAfterSent(prior, r, conn.incoming, n, quit);
      return lookup >= 0, quit;
    }
  }

  /** Commands sent before a settled session change neither how it reads
      nor how it fails. */
  lemma SettledAfterSent(prior: seq<string>, r: SessionResult, rest: seq<LineEvent>, n: nat, quit: bool)
    ensures Reading(r, rest, n) ==> Reading(AfterSent(prior, r), rest, n)
    ensures Failing(r, rest, quit) ==> Failing(AfterSent(prior, r), rest, quit)
    ensures AfterSent(prior, r).sent == prior + r.sent
  {
  }

  /** fnCDDB_SessionWrapper: the lookups and the entry, on a connected
      socket, for a disc of n tracks. */
  method SessionWrapper(conn: Connection, n: nat, login: Option<string>, host: Option<string>, query: string)
    returns (rv: int, quit: bool, disc: Option<string>, slots: array<Option<string>>)
    modifies conn
    ensures fresh(slots)
    ensures var w := Wrapper(old(conn.incoming), n, login, host, query);
            rv == w.rv && quit == w.quit && disc == w.disc && slots[..] == Slots(w.titles, n) &&
            conn.incoming == w.rest && conn.sent == old(conn.sent) + w.sent
    ensures conn.closes == old(conn.closes)
  {
    var read;
    read, quit := NegotiateLookups(conn, n, login, host, query);
    if !read {
      slots := new Option<string>[n](_ => None);
      assert slots[..] == Slots([], n);
      return -1, quit, None, slots;
    }
    var entry;
    entry, disc, slots := ReadEntry(conn, n);
    if entry < 0 {
      if entry == -3 {
        quit := false;
      }
      return -1, quit, disc, slots;
    }
    return 0, quit, disc, slots;
  }

  // ---------------------------------------------------------------------
  // fnCDDB_DoCDDBQuery
  // ---------------------------------------------------------------------

  /** The titles held in the slots, an empty title for an empty slot. */
  function SlotTitles(slots: seq<Option<string>>): (titles: seq<string>)
    ensures |titles| == |slots|
    ensures forall i :: 0 <= i < |slots| && slots[i].Some? ==> titles[i] == slots[i].value
  {
    seq(|slots|, i requires 0 <= i < |slots| => if slots[i].Some? then slots[i].value else "")
  }

  /**
   * fnCDDB_DoCDDBQuery on a socket the connection attempt gave (none when
   * it failed): the session, then "quit" when the session allows it and
   * one close, then, unless CDDB file names are skipped, the file names
   * stored in the tracks. -1 when any step fails, 0 otherwise.
   */
  method DoCDDBQuery(conn: Connection, connected: bool, tracks: array<TrackInfo>, skipFilenames: bool,
                     login: Option<string>, host: Option<string>, query: string) returns (rv: int)
    modifies conn, tracks
    ensures !connected ==> rv == -1 && conn.sent == old(conn.sent) && conn.closes == old(conn.closes) &&
                           tracks[..] == old(tracks[..])
    ensures connected ==>
              var w := Wrapper(old(conn.incoming), tracks.Length, login, host, query);
              conn.closes == old(conn.closes) + 1 &&
              conn.sent == old(conn.sent) + w.sent + (if w.quit then ["quit\r\n"] else []) &&
              (w.rv < 0 || skipFilenames ==> rv == w.rv && tracks[..] == old(tracks[..])) &&
              (w.rv == 0 && !skipFilenames && w.disc.None? ==> rv == -1 && tracks[..] == old(tracks[..])) &&
              (w.rv == 0 && !skipFilenames && w.disc.Some? ==>
                 var k := FirstTooLong(w.disc.value, w.titles);
                 rv == (if k < tracks.Length then -1 else 0) &&
                 tracks[..] == Renamed(old(tracks[..]), FileNames(w.disc.value, w.titles), k))
  {
    if !connected {
      return -1;
    }
    ghost var w := Wrapper(conn.incoming, tracks.Length, login, host, query);
    NegotiationOutcome(conn.incoming, tracks.Length, 1, login, host, query);
    var session, quit, disc, slots := SessionWrapper(conn, tracks.Length, login, host, query);
    if quit {
      conn.Write("quit\r\n");
    }
    conn.Close();
    if session < 0 {
      return -1;
    }
    if !skipFilenames {
      var titles := SlotTitles(slots[..]);
      assert titles == w.titles;
      var stored := StoreFilenames(tracks, disc, titles);
      if stored < 0 {
        return -1;
      }
    }
    return 0;
  }
}

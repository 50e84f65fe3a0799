/**
 * Reading the CDDB entry that follows a successful "cddb read": the disc
 * title from DTITLE lines, the track titles from TTITLE lines (in the order
 * they arrive; the number after TTITLE is read but not used), up to the
 * line holding a single period.
 */
module Entry {
  import opened Text
  import opened Protocol

  /** The longest title kept: the %79[^\r\n] conversion. */
  const MaxTitleLength: nat := 79

  /** Length of the leading run of characters other than CR and LF. */
  function TitleRun(s: string): (k: nat)
    ensures k <= |s| && '\r' !in s[..k] && '\n' !in s[..k]
    ensures k < |s| ==> s[k] == '\r' || s[k] == '\n'
  {
    if s != [] && s[0] != '\r' && s[0] != '\n' then
      var k := 1 + TitleRun(s[1..]);
      assert s[..k] == [s[0]] + s[1..][..k - 1];
      k
    else 0
  }

  /** The %79[^\r\n] conversion: at least one and at most 79 characters up
      to the first CR or LF; no match when the text starts with one. */
  function ScanTitle(s: string): (r: Option<string>)
    ensures r.None? <==> s == [] || s[0] == '\r' || s[0] == '\n'
    ensures r.Some? ==> 1 <= |r.value| <= MaxTitleLength && StartsWith(s, r.value) &&
                        '\r' !in r.value && '\n' !in r.value
  {
    var k := Min(TitleRun(s), MaxTitleLength);
    if k == 0 then None
    else
      assert s[..k] == s[..TitleRun(s)][..k];
      Some(s[..k])
  }

  /** sscanf(line, "DTITLE=%79[^\r\n]\r\n", title) > 0 */
  function DiscTitleOf(line: string): (r: Option<string>)
    ensures r.Some? ==> StartsWith(line, "DTITLE=") && |r.value| >= 1
  {
    if StartsWith(line, "DTITLE=") then ScanTitle(line[7..]) else None
  }

  /** sscanf(line, "TTITLE%u=%79[^\r\n]\r\n", &track, title) > 0: a number
      must follow TTITLE; the title is empty when the equals sign or the
      title itself is missing. */
  function TrackTitleOf(line: string): (r: Option<string>)
    ensures r.Some? ==> StartsWith(line, "TTITLE") && |r.value| <= MaxTitleLength &&
                        '\r' !in r.value && '\n' !in r.value
  {
    if !StartsWith(line, "TTITLE") then None
    else match ScanNumber(line[6..])
      case None => None
      case Some((_, rest)) =>
        if rest != [] && rest[0] == '=' then
          (match ScanTitle(rest[1..])
           case None => Some("")
           case Some(title) => Some(title))
        else Some("")
  }

  /** The terminating marker: strncmp(line, ".\r\n", 3) == 0. */
  predicate IsMarker(line: string) { StartsWith(line, ".\r\n") }

  /** The result code, the disc title, the track titles read, and the
      replies left unread. */
  datatype EntryResult = EntryResult(rv: int, disc: Option<string>, titles: seq<string>, rest: seq<LineEvent>)

  /**
   * The entry read from the given replies for a disc of n tracks, with the
   * disc title and the track titles read so far: 0 at the marker after n
   * titles, -2 at the marker after fewer, -1 on a title beyond the n-th,
   * -2 on a read error and -3 when the data ends first.
   */
  function EntryFrom(lines: seq<LineEvent>, n: nat, disc: Option<string>, titles: seq<string>): EntryResult
    decreases |lines|
  {
    if lines == [] then EntryResult(-3, disc, titles, [])
    else match lines[0]
      case Closed => EntryResult(-3, disc, titles, lines[1..])
      case ReadFailed => EntryResult(-2, disc, titles, lines[1..])
      case Line(t) =>
        if IsMarker(t) then EntryResult(if |titles| < n then -2 else 0, disc, titles, lines[1..])
        else if DiscTitleOf(t).Some? then EntryFrom(lines[1..], n, DiscTitleOf(t), titles)
        else if TrackTitleOf(t).Some? then
          if |titles| >= n then EntryResult(-1, disc, titles, lines[1..])
          else EntryFrom(lines[1..], n, disc, titles + [TrackTitleOf(t).value])
        else EntryFrom(lines[1..], n, disc, titles)
  }

  // ---------------------------------------------------------------------
  // An independent description of the outcome
  // ---------------------------------------------------------------------

  /** An event that ends the entry: the marker, the end of the data or a
      read error. */
  predicate Ends(e: LineEvent) { !e.Line? || IsMarker(e.text) }

  /** The position of the first event that ends the entry. */
  function Ending(lines: seq<LineEvent>): (k: nat)
    ensures k <= |lines| && (k < |lines| ==> Ends(lines[k]))
    ensures forall i :: 0 <= i < k ==> !Ends(lines[i])
  {
    if lines == [] || Ends(lines[0]) then 0 else 1 + Ending(lines[1..])
  }

  /** The track titles the TTITLE lines among the given replies carry. */
  function TitlesIn(lines: seq<LineEvent>): seq<string>
  {
    if lines == [] then []
    else
      var more := TitlesIn(lines[1..]);
      if lines[0].Line? && DiscTitleOf(lines[0].text).None? && TrackTitleOf(lines[0].text).Some? then
        [TrackTitleOf(lines[0].text).value] + more
      else more
  }

  /** The disc title of the last DTITLE line among the given replies. */
  function LastDisc(lines: seq<LineEvent>, disc: Option<string>): Option<string>
  {
    if lines == [] then disc
    else if lines[0].Line? && DiscTitleOf(lines[0].text).Some? then LastDisc(lines[1..], DiscTitleOf(lines[0].text))
    else LastDisc(lines[1..], disc)
  }

  /** The result code for the event that ended the entry after the given
      number of titles; the end of the data when there is none. */
  function EndCode(lines: seq<LineEvent>, k: nat, count: nat, n: nat): int
  {
    if k >= |lines| || lines[k].Closed? then -3
    else if lines[k].ReadFailed? then -2
    else if count < n then -2
    else 0
  }

  /** The title a reply that does not end the entry adds, if any. */
  function TitlesAfter(e: LineEvent, titles: seq<string>): seq<string>
  {
    if e.Line? && DiscTitleOf(e.text).None? && TrackTitleOf(e.text).Some? then titles + [TrackTitleOf(e.text).value]
    else titles
  }

  /** The disc title after a reply that does not end the entry. */
  function DiscAfter(e: LineEvent, disc: Option<string>): Option<string>
  {
    if e.Line? && DiscTitleOf(e.text).Some? then DiscTitleOf(e.text) else disc
  }

  /** One reply that does not end the entry, as the reader takes it. */
  lemma EntryStep(lines: seq<LineEvent>, n: nat, disc: Option<string>, titles: seq<string>)
    requires lines != [] && !Ends(lines[0]) && |titles| <= n
    ensures var titles' := TitlesAfter(lines[0], titles);
            EntryFrom(lines, n, disc, titles)
            == if |titles'| > n then EntryResult(-1, disc, titles, lines[1..])
               else EntryFrom(lines[1..], n, DiscAfter(lines[0], disc), titles')
  {
  }

  /** One reply that does not end the entry, as the reference functions take it. */
  lemma ReferenceStep(lines: seq<LineEvent>, disc: Option<string>, titles: seq<string>)
    requires lines != [] && !Ends(lines[0])
    ensures var k := Ending(lines);
            k >= 1 && Ending(lines[1..]) == k - 1 &&
            titles + TitlesIn(lines[..k]) == TitlesAfter(lines[0], titles) + TitlesIn(lines[1..][..k - 1]) &&
            LastDisc(lines[..k], disc) == LastDisc(lines[1..][..k - 1], DiscAfter(lines[0], disc))
  {
    var k := Ending(lines);
    var p := lines[..k];
    assert p[0] == lines[0];
    assert lines[1..][..k - 1] == p[1..];
    TitlesCons(p, titles);
    LastDiscCons(p, disc);
  }

  lemma TitlesCons(p: seq<LineEvent>, titles: seq<string>)
    requires p != []
    ensures titles + TitlesIn(p) == TitlesAfter(p[0], titles) + TitlesIn(p[1..])
  {
    var e := p[0];
    if e.Line? && DiscTitleOf(e.text).None? && TrackTitleOf(e.text).Some? {
      var t := TrackTitleOf(e.text).value;
      assert titles + ([t] + TitlesIn(p[1..])) == (titles + [t]) + TitlesIn(p[1..]);
    }
  }

  lemma LastDiscCons(p: seq<LineEvent>, disc: Option<string>)
    requires p != []
    ensures LastDisc(p, disc) == LastDisc(p[1..], DiscAfter(p[0], disc))
  {
  }

  /**
   * The entry in terms of the replies before the first ending event: when
   * they carry more titles than there are tracks the result is -1 with the
   * first n titles; otherwise the titles are all of them, the disc title is
   * the last one given, and the result code is that of the ending event.
   */
  ghost predicate Described(lines: seq<LineEvent>, n: nat, disc: Option<string>, titles: seq<string>)
    requires |titles| <= n
  {
    var r := EntryFrom(lines, n, disc, titles);
    var k := Ending(lines);
    var all := titles + TitlesIn(lines[..k]);
    (|all| > n ==> r.rv == -1 && r.titles == all[..n]) &&
    (|all| <= n ==> r.rv == EndCode(lines, k, |all|, n) && r.titles == all &&
                    r.disc == LastDisc(lines[..k], disc) &&
                    r.rest == (if k < |lines| then lines[k + 1..] else []))
  }

  /** The reader's outcome is the one described, for all replies. */
  lemma {:induction false} EntryOutcome(lines: seq<LineEvent>, n: nat, disc: Option<string>, titles: seq<string>)
    requires |titles| <= n
    ensures Described(lines, n, disc, titles)
    decreases |lines|
  {
    if lines == [] || Ends(lines[0]) {
      EndsAtOnce(lines, n, disc, titles);
    } else if |TitlesAfter(lines[0], titles)| > n {
      OverflowsAtOnce(lines, n, disc, titles);
    } else {
      var k := Ending(lines);
      var tail := lines[1..];
      EntryOutcome(tail, n, DiscAfter(lines[0], disc), TitlesAfter(lines[0], titles));
      EntryStep(lines, n, disc, titles);
      ReferenceStep(lines, disc, titles);
      if k - 1 < |tail| {
        assert tail[k - 1..] == lines[k..];
      }
    }
  }

  lemma EndsAtOnce(lines: seq<LineEvent>, n: nat, disc: Option<string>, titles: seq<string>)
    requires |titles| <= n && (lines == [] || Ends(lines[0]))
    ensures Described(lines, n, disc, titles)
  {
    assert Ending(lines) == 0 && lines[..0] == [];
  }

  lemma OverflowsAtOnce(lines: seq<LineEvent>, n: nat, disc: Option<string>, titles: seq<string>)
    requires |titles| <= n && lines != [] && !Ends(lines[0]) && |TitlesAfter(lines[0], titles)| > n
    ensures Described(lines, n, disc, titles)
  {
    var k := Ending(lines);
    EntryStep(lines, n, disc, titles);
    ReferenceStep(lines, disc, titles);
    var all := titles + TitlesIn(lines[..k]);
    assert |titles| == n && all[..n] == titles;
  }

  /** The outcome in brief: success exactly when the marker arrives after
      exactly n titles; every title is short and has no line break. */
  lemma EntrySucceeds(lines: seq<LineEvent>, n: nat)
    ensures var r := EntryFrom(lines, n, None, []);
            var k := Ending(lines);
            (r.rv == 0 <==> k < |lines| && lines[k].Line? && |TitlesIn(lines[..k])| == n) &&
            (r.rv == 0 ==> |r.titles| == n) &&
            r.rv in {0, -1, -2, -3}
  {
    EntryOutcome(lines, n, None, []);
    assert [] + TitlesIn(lines[..Ending(lines)]) == TitlesIn(lines[..Ending(lines)]);
  }

  /**
   * An entry with no DTITLE line still succeeds, and leaves the disc title
   * unset: nothing in the reader insists on one, although the file names
   * built next are derived from it.
   */
  lemma EntryWithoutDiscTitle(lines: seq<LineEvent>, n: nat)
    requires Ending(lines) < |lines| && lines[Ending(lines)].Line?
    requires |TitlesIn(lines[..Ending(lines)])| == n
    requires forall i :: 0 <= i < Ending(lines) ==> DiscTitleOf(lines[i].text).None?
    ensures EntryFrom(lines, n, None, []).rv == 0
    ensures EntryFrom(lines, n, None, []).disc == None
  {
    var k := Ending(lines);
    var p := lines[..k];
    assert forall i :: 0 <= i < |p| ==> p[i] == lines[i] && !Ends(lines[i]);
    NoDiscTitle(p);
    EntryOutcome(lines, n, None, []);
    assert [] + TitlesIn(p) == TitlesIn(p);
  }

  lemma {:induction false} NoDiscTitle(p: seq<LineEvent>)
    requires forall i :: 0 <= i < |p| ==> p[i].Line? && DiscTitleOf(p[i].text).None?
    ensures LastDisc(p, None) == None
  {
    if p != [] {
      NoDiscTitle(p[1..]);
    }
  }

  /** Every title read is at most 79 characters and holds no CR or LF. */
  lemma {:induction false} TitlesAreClean(lines: seq<LineEvent>)
    ensures forall i :: 0 <= i < |TitlesIn(lines)| ==>
              |TitlesIn(lines)[i]| <= MaxTitleLength && '\r' !in TitlesIn(lines)[i] && '\n' !in TitlesIn(lines)[i]
  {
    if lines != [] {
      TitlesAreClean(lines[1..]);
    }
  }

  // ---------------------------------------------------------------------
  // fnCDDB_ReadEntry
  // ---------------------------------------------------------------------

  /** The n title slots: the titles read so far in order, then empty ones. */
  function Slots(titles: seq<string>, n: nat): (s: seq<Option<string>>)
    ensures |s| == n
    ensures forall i :: 0 <= i < n ==> (s[i].Some? <==> i < |titles|)
    ensures forall i :: 0 <= i < n && i < |titles| ==> s[i] == Some(titles[i])
  {
    seq(n, i requires 0 <= i < n => if i < |titles| then Some(titles[i]) else None)
  }

  /** fnCDDB_ReadEntry for a disc of n tracks: the result code, the disc
      title (none before a DTITLE line) and the n track title slots. */
  method ReadEntry(conn: Connection, n: nat) returns (rv: int, disc: Option<string>, slots: array<Option<string>>)
    modifies conn
    ensures fresh(slots)
    ensures var r := EntryFrom(old(conn.incoming), n, None, []);
            rv == r.rv && disc == r.disc && slots[..] == Slots(r.titles, n) && conn.incoming == r.rest
    ensures conn.sent == old(conn.sent) && conn.closes == old(conn.closes)
  {
    slots := new Option<string>[n](_ => None);
    disc := None;
    var index := 1;
    ghost var titles: seq<string> := [];
    ghost var whole := EntryFrom(conn.incoming, n, None, []);
    while true
      invariant 1 <= index <= n + 1 && |titles| == index - 1
      invariant slots[..] == Slots(titles, n)
      invariant whole == EntryFrom(conn.incoming, n, disc, titles)
      invariant conn.sent == old(conn.sent) && conn.closes == old(conn.closes)
      decreases |conn.incoming|
    {
      var e := conn.ReadLine();
      if e.ReadFailed? {
        return -2, disc, slots;
      } else if e.Closed? {
        return -3, disc, slots;
      }
      var line := e.text;
      if IsMarker(line) {
        break;
      }
      var d := DiscTitleOf(line);
      if d.Some? {
        disc := d;
        continue;
      }
      var t := TrackTitleOf(line);
      if t.Some? {
        if index > n {
          return -1, disc, slots;
        }
        slots[index - 1] := t;
        titles := titles + [t.value];
        index := index + 1;
      }
    }
    if index - 1 < n {
      return -2, disc, slots;
    }
    return 0, disc, slots;
  }
}

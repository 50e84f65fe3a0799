/**
 * The CDDB disc identifier and the `cddb query` command built from the
 * table of contents, following the algorithm of the CDDB "howto" document:
 * a digit-sum hash over the start seconds of every track, packed together
 * with the playing time and the track count into 32 bits and printed as
 * eight lower-case hexadecimal digits.
 *
 * The model keeps the program's own choices: the hash is reduced modulo
 * 0xff (255), the seconds field of the identifier is the raw difference
 * between the lead-out and the first track, and only the stored total and
 * the last number of the query add the two seconds of lead-in.
 */
module DiscId {
  import opened Text
  import opened Toc

  // ---------------------------------------------------------------------
  // The track hash
  // ---------------------------------------------------------------------

  /** The sum of the decimal digits of n; 0 for every n <= 0. */
  function DigitSum(n: int): nat
    decreases if n <= 0 then 0 else n
  {
    if n <= 0 then 0 else n % 10 + DigitSum(n / 10)
  }

  /** The digits added up one by one, from the last to the first. */
  method TrackHash(seconds: int) returns (h: int)
    ensures h == DigitSum(seconds)
  {
    var x := seconds;
    h := 0;
    while x > 0
      invariant h + DigitSum(x) == DigitSum(seconds)
      decreases x
    {
      h := h + x % 10;
      x := x / 10;
    }
  }

  /** Sum of the digit characters of a string, as an independent reading of
      "the sum of the digits". */
  function DigitCharSum(s: string): nat
    requires AllDigits(s)
  {
    if s == [] then 0 else DigitCharSum(s[..|s| - 1]) + DigitValue(s[|s| - 1])
  }

  /** The hash of a track is the sum of the digits printf would print for it. */
  lemma {:induction false} DigitSumOfDecimal(n: nat)
    ensures DigitSum(n) == DigitCharSum(Decimal(n))
  {
    if n >= 10 {
      DigitSumOfDecimal(n / 10);
      var s := Decimal(n);
      assert s[..|s| - 1] == Decimal(n / 10);
    }
  }

  /** Casting out nines: the hash keeps its argument's residue modulo 9. */
  lemma {:induction false} DigitSumMod9(n: nat)
    ensures DigitSum(n) % 9 == n % 9
  {
    if n > 0 {
      var q, r := n / 10, n % 10;
      DigitSumMod9(q);
      assert DigitSum(n) == r + DigitSum(q);
      var a, b := DigitSum(q) / 9, q / 9;
      assert DigitSum(q) == 9 * a + q % 9;
      assert n == 10 * q + r;
      assert n == 9 * (10 * b + q % 9) + (q % 9 + r) by {
        assert q == 9 * b + q % 9;
      }
      NinesShift(q % 9 + r, a);
      NinesShift(q % 9 + r, 10 * b + q % 9);
    }
  }

  lemma NinesShift(x: int, k: int)
    ensures (x + 9 * k) % 9 == x % 9
  {
  }

  /** The hash never exceeds its argument. */
  lemma {:induction false} DigitSumBound(n: nat)
    ensures DigitSum(n) <= n
  {
    if n > 0 {
      DigitSumBound(n / 10);
    }
  }

  // ---------------------------------------------------------------------
  // The identifier
  // ---------------------------------------------------------------------

  /** The sum of the track hashes over the first k tracks. */
  function HashSum(toc: seq<TocEntry>, k: nat): nat
    requires k <= |toc|
  {
    if k == 0 then 0 else HashSum(toc, k - 1) + DigitSum(StartSeconds(toc[k - 1]))
  }

  /** Lead-out seconds minus first-track seconds, without the lead-in. */
  function RawSeconds(toc: seq<TocEntry>, n: nat): int
    requires 0 < |toc| && n < |toc|
  {
    StartSeconds(toc[n]) - StartSeconds(toc[0])
  }

  /**
   * The 32-bit identifier (hash % 0xff) << 24 | seconds << 8 | n. With the
   * seconds below 2^16 and n below 2^8 the three fields do not overlap, so
   * the bitwise or equals the sum written here.
   */
  function DiscIdValue(hash: nat, seconds: nat, n: nat): (v: nat)
    requires seconds < 0x1_0000 && n < 0x100
    ensures v < 0x1_0000_0000
  {
    (hash % 0xff) * 0x100_0000 + seconds * 0x100 + n
  }

  /** The three fields can be read back out of the identifier. */
  lemma DiscIdFields(hash: nat, seconds: nat, n: nat)
    requires seconds < 0x1_0000 && n < 0x100
    ensures DiscIdValue(hash, seconds, n) / 0x100_0000 == hash % 0xff
    ensures DiscIdValue(hash, seconds, n) / 0x100 % 0x1_0000 == seconds
    ensures DiscIdValue(hash, seconds, n) % 0x100 == n
  {
    var v := DiscIdValue(hash, seconds, n);
    var h := hash % 0xff;
    assert v == (h * 0x1_0000 + seconds) * 0x100 + n;
    assert v / 0x100 == h * 0x1_0000 + seconds;
    assert v == h * 0x100_0000 + (seconds * 0x100 + n);
  }

  /** printf("%08x") of the identifier. */
  function DiscIdText(hash: nat, seconds: nat, n: nat): (s: string)
    requires seconds < 0x1_0000 && n < 0x100
    ensures |s| == 8
  {
    HexDigits(DiscIdValue(hash, seconds, n), 8)
  }

  /** The eight hex digits read back as the identifier. */
  lemma DiscIdTextRoundTrip(hash: nat, seconds: nat, n: nat)
    requires seconds < 0x1_0000 && n < 0x100
    ensures HexDigitsValue(DiscIdText(hash, seconds, n)) == DiscIdValue(hash, seconds, n)
  {
    assert Pow16(8) == 0x1_0000_0000;
    HexRoundTrip(DiscIdValue(hash, seconds, n), 8);
  }

  // ---------------------------------------------------------------------
  // The query
  // ---------------------------------------------------------------------

  /** What the identifier and query builder needs of the table of contents:
      n tracks plus the lead-out, every address field a byte, and a playing
      time that fits the 16-bit seconds field of the identifier. */
  predicate QueryableToc(toc: seq<TocEntry>, n: nat)
  {
    n < |toc| && n < 0x100 && ValidToc(toc) && 0 <= RawSeconds(toc, n) < 0x1_0000
  }

  /** The offsets text kept in the 500-byte buffer after k tracks: each
      "%d " piece is appended with strncat, cut to the room that is left. */
  function OffsetsText(toc: seq<TocEntry>, k: nat): (s: string)
    requires k <= |toc|
    ensures |s| <= 499
  {
    if k == 0 then ""
    else
      var prev := OffsetsText(toc, k - 1);
      prev + Truncate(Decimal(FrameOffset(toc[k - 1])) + " ", 499 - |prev|)
  }

  /** The same text without the buffer limit. */
  function FullOffsetsText(toc: seq<TocEntry>, k: nat): string
    requires k <= |toc|
  {
    if k == 0 then "" else FullOffsetsText(toc, k - 1) + Decimal(FrameOffset(toc[k - 1])) + " "
  }

  /** The offsets as separate words. */
  function OffsetWords(toc: seq<TocEntry>, k: nat): (ws: seq<string>)
    requires k <= |toc|
    ensures |ws| == k
  {
    if k == 0 then [] else OffsetWords(toc, k - 1) + [Decimal(FrameOffset(toc[k - 1]))]
  }

  /** While the offsets fit in the buffer nothing is cut. */
  lemma {:induction false} OffsetsTextFits(toc: seq<TocEntry>, k: nat)
    requires k <= |toc| && |FullOffsetsText(toc, k)| <= 499
    ensures OffsetsText(toc, k) == FullOffsetsText(toc, k)
  {
    if k > 0 {
      OffsetsTextFits(toc, k - 1);
    }
  }

  /** What the builder stores in the CDDB information record. */
  datatype QueryInfo = QueryInfo(
    totalSeconds: int,
    discId: string,
    frameOffsets: seq<int>,
    trackSeconds: seq<int>,
    query: string)

  function QueryHead(toc: seq<TocEntry>, n: nat): (s: string)
    requires QueryableToc(toc, n)
  {
    "cddb query " + DiscIdText(HashSum(toc, n), RawSeconds(toc, n), n) + " " + Decimal(n) + " "
  }

  /** The query command: "cddb query <id> <n> ", every offset followed by
      a blank, then the total seconds including the lead-in. */
  function QueryText(toc: seq<TocEntry>, n: nat): (s: string)
    requires QueryableToc(toc, n)
  {
    QueryHead(toc, n) + OffsetsText(toc, n) + Decimal(RawSeconds(toc, n) + 2)
  }

  /** The hash loop: the track hashes of the first n tracks added up. */
  method SumTrackHashes(toc: seq<TocEntry>, n: nat) returns (hash: int)
    requires n <= |toc|
    ensures hash == HashSum(toc, n)
  {
    hash := 0;
    var t := 0;
    while t < n
      invariant 0 <= t <= n
      invariant hash == HashSum(toc, t)
    {
      var h := TrackHash(StartSeconds(toc[t]));
      hash := hash + h;
      t := t + 1;
    }
  }

  /** The playing time of track i in whole seconds: the difference of the
      next entry's start and its own. */
  function TrackSeconds(toc: seq<TocEntry>, i: nat): int
    requires i + 1 < |toc|
  {
    StartSeconds(toc[i + 1]) - StartSeconds(toc[i])
  }

  /** The frame offsets of the first k tracks. */
  function Offsets(toc: seq<TocEntry>, k: nat): (r: seq<int>)
    requires k <= |toc|
    ensures |r| == k
  {
    if k == 0 then [] else Offsets(toc, k - 1) + [FrameOffset(toc[k - 1])]
  }

  /** The playing times of the first k tracks. */
  function Durations(toc: seq<TocEntry>, k: nat): (r: seq<int>)
    requires k < |toc|
    ensures |r| == k
  {
    if k == 0 then [] else Durations(toc, k - 1) + [TrackSeconds(toc, k - 1)]
  }

  lemma {:induction false} OffsetsAt(toc: seq<TocEntry>, k: nat)
    requires k <= |toc|
    ensures forall i :: 0 <= i < k ==> Offsets(toc, k)[i] == FrameOffset(toc[i])
  {
    if k > 0 {
      OffsetsAt(toc, k - 1);
    }
  }

  lemma {:induction false} DurationsAt(toc: seq<TocEntry>, k: nat)
    requires k < |toc|
    ensures forall i :: 0 <= i < k ==> Durations(toc, k)[i] == TrackSeconds(toc, i)
  {
    if k > 0 {
      DurationsAt(toc, k - 1);
    }
  }

  /** One pass of the offset loop: the track's "%d " piece appended to the
      offsets buffer with strncat, its offset and its length in seconds
      stored. */
  method FillTrack(offsetArray: array<int>, secondsArray: array<int>, toc: seq<TocEntry>, t: nat, text: string)
    returns (text': string)
    requires t + 1 < |toc| && t < offsetArray.Length && t < secondsArray.Length && offsetArray != secondsArray
    requires text == OffsetsText(toc, t)
    requires offsetArray[..t] == Offsets(toc, t) && secondsArray[..t] == Durations(toc, t)
    modifies offsetArray, secondsArray
    ensures text' == OffsetsText(toc, t + 1)
    ensures offsetArray[..t + 1] == Offsets(toc, t + 1) && secondsArray[..t + 1] == Durations(toc, t + 1)
  {
    var offset := FrameOffset(toc[t]);
    text' := text + Truncate(Decimal(offset) + " ", 499 - |text|);
    offsetArray[t] := offset;
    secondsArray[t] := TrackSeconds(toc, t);
    assert offsetArray[..t + 1] == old(offsetArray[..t]) + [offset];
    assert secondsArray[..t + 1] == old(secondsArray[..t]) + [TrackSeconds(toc, t)];
  }

  /** The offset loop: fills the offset and duration arrays and appends
      each "%d " piece to the 500-byte offsets buffer. */
  method FillOffsets(toc: seq<TocEntry>, n: nat) returns (offsets: seq<int>, seconds: seq<int>, text: string)
    requires n < |toc|
    ensures offsets == Offsets(toc, n) && seconds == Durations(toc, n)
    ensures text == OffsetsText(toc, n)
  {
    var offsetArray := new int[n];
    var secondsArray := new int[n];
    text := "";
    var t := 0;
    while t < n
      invariant 0 <= t <= n
      invariant text == OffsetsText(toc, t)
      invariant offsetArray[..t] == Offsets(toc, t) && secondsArray[..t] == Durations(toc, t)
    {
      text := FillTrack(offsetArray, secondsArray, toc, t, text);
      t := t + 1;
    }
    offsets, seconds := offsetArray[..], secondsArray[..];
    assert offsets == offsetArray[..t];
  }

  /**
   * fnCDDB_BuildQueryString: hash every track, compute the playing time,
   * print the identifier, fill the offset and duration arrays and build the
   * query in the 1024-byte buffer.
   */
  method BuildQueryString(toc: seq<TocEntry>, n: nat) returns (info: QueryInfo)
    requires QueryableToc(toc, n)
    ensures info.totalSeconds == RawSeconds(toc, n) + 2
    ensures info.discId == DiscIdText(HashSum(toc, n), RawSeconds(toc, n), n)
    ensures |info.frameOffsets| == n && |info.trackSeconds| == n
    ensures forall i :: 0 <= i < n ==> info.frameOffsets[i] == FrameOffset(toc[i])
    ensures forall i :: 0 <= i < n ==>
              info.trackSeconds[i] == TrackSeconds(toc, i)
    ensures info.query == QueryText(toc, n) && |info.query| < 1024
  {
    var hash := SumTrackHashes(toc, n);
    var raw := (toc[n].minute * 60 + toc[n].second) - (toc[0].minute * 60 + toc[0].second);
    var total := raw + 2;
    var id := HexDigits(DiscIdValue(hash, raw, n), 8);
    var offsets, seconds, text := FillOffsets(toc, n);
    OffsetsAt(toc, n);
    DurationsAt(toc, n);
    var query := "cddb query " + id + " " + Decimal(n) + " " + text + Decimal(total);
    QueryLength(toc, n);
    info := QueryInfo(total, id, offsets, seconds, query);
  }

  /** The query always fits the 1024-byte buffer, so snprintf keeps all of it. */
  lemma QueryLength(toc: seq<TocEntry>, n: nat)
    requires QueryableToc(toc, n)
    ensures |QueryText(toc, n)| < 1024
  {
    assert Pow10(3) == 1000;
    DecimalLength(n, 3, 1000);
    assert Pow10(6) == 1_000_000;
    DecimalLength(RawSeconds(toc, n) + 2, 6, 1_000_000);
  }

  // ---------------------------------------------------------------------
  // What a server reads back out of the query
  // ---------------------------------------------------------------------

  /** The words of the query: the command, the identifier, the count, each
      offset and the total seconds. */
  function QueryWords(toc: seq<TocEntry>, n: nat): (ws: seq<string>)
    requires QueryableToc(toc, n)
    ensures |ws| == n + 5
  {
    ["cddb", "query", DiscIdText(HashSum(toc, n), RawSeconds(toc, n), n), Decimal(n)]
      + OffsetWords(toc, n) + [Decimal(RawSeconds(toc, n) + 2)]
  }

  lemma {:induction false} JoinOffsets(toc: seq<TocEntry>, prefix: seq<string>, k: nat)
    requires k <= |toc| && |prefix| > 0
    ensures Join(prefix) + " " + FullOffsetsText(toc, k) == Join(prefix + OffsetWords(toc, k)) + " "
  {
    if k == 0 {
      assert prefix + OffsetWords(toc, 0) == prefix;
    } else {
      JoinOffsets(toc, prefix, k - 1);
      var d := Decimal(FrameOffset(toc[k - 1]));
      var before := prefix + OffsetWords(toc, k - 1);
      assert prefix + OffsetWords(toc, k) == before + [d];
      JoinSnoc(before, d);
      calc {
        Join(prefix) + " " + FullOffsetsText(toc, k);
        Join(prefix) + " " + (FullOffsetsText(toc, k - 1) + d + " ");
        (Join(prefix) + " " + FullOffsetsText(toc, k - 1)) + d + " ";
        Join(before) + " " + d + " ";
      }
    }
  }

  lemma NoBlankInDigits(s: string)
    requires AllDigits(s)
    ensures ' ' !in s
  {
  }

  /** With the offsets intact, the query is its words joined by blanks. */
  lemma QueryIsJoin(toc: seq<TocEntry>, n: nat)
    requires QueryableToc(toc, n)
    requires |FullOffsetsText(toc, n)| <= 499
    ensures QueryText(toc, n) == Join(QueryWords(toc, n))
  {
    var id := DiscIdText(HashSum(toc, n), RawSeconds(toc, n), n);
    var prefix := ["cddb", "query", id, Decimal(n)];
    var last := Decimal(RawSeconds(toc, n) + 2);
    OffsetsTextFits(toc, n);
    HeadIsJoin(toc, n);
    JoinOffsets(toc, prefix, n);
    JoinSnoc(prefix + OffsetWords(toc, n), last);
  }

  /** The head of the query is its first four words joined, and a blank. */
  lemma HeadIsJoin(toc: seq<TocEntry>, n: nat)
    requires QueryableToc(toc, n)
    ensures var id := DiscIdText(HashSum(toc, n), RawSeconds(toc, n), n);
            Join(["cddb", "query", id, Decimal(n)]) + " " == QueryHead(toc, n)
  {
    var id := DiscIdText(HashSum(toc, n), RawSeconds(toc, n), n);
    JoinCons("query", [id, Decimal(n)]);
    JoinCons("cddb", ["query", id, Decimal(n)]);
    assert Join([id, Decimal(n)]) == id + " " + Decimal(n);
  }

  /** No word of the query contains a blank. */
  lemma QueryWordsHaveNoBlank(toc: seq<TocEntry>, n: nat)
    requires QueryableToc(toc, n)
    ensures forall i :: 0 <= i < |QueryWords(toc, n)| ==> ' ' !in QueryWords(toc, n)[i]
  {
    var ws := QueryWords(toc, n);
    forall i | 0 <= i < |ws|
      ensures ' ' !in ws[i]
    {
      if 4 <= i < n + 4 {
        OffsetWordDigits(toc, n, i - 4);
        NoBlankInDigits(ws[i]);
      } else if i == 2 {
        assert forall j :: 0 <= j < 8 ==> IsHexDigit(ws[2][j]);
      } else if i != 0 && i != 1 {
        NoBlankInDigits(ws[i]);
      }
    }
  }

  /**
   * Whenever the offsets fit in their 500-byte buffer, splitting the query
   * at blanks gives back the identifier, the track count, every frame offset
   * in track order and the total playing seconds, each as a number.
   */
  lemma QueryRoundTrip(toc: seq<TocEntry>, n: nat)
    requires QueryableToc(toc, n)
    requires |FullOffsetsText(toc, n)| <= 499
    ensures Split(QueryText(toc, n)) == QueryWords(toc, n)
    ensures var ws := QueryWords(toc, n);
            ReadHex(ws[2]) == Some(DiscIdValue(HashSum(toc, n), RawSeconds(toc, n), n)) &&
            ReadDecimal(ws[3]) == Some(n) &&
            (forall i :: 0 <= i < n ==> ReadDecimal(ws[4 + i]) == Some(FrameOffset(toc[i]))) &&
            ReadDecimal(ws[n + 4]) == Some(RawSeconds(toc, n) + 2)
  {
    QueryIsJoin(toc, n);
    QueryWordsHaveNoBlank(toc, n);
    SplitJoin(QueryWords(toc, n));
    QueryWordValues(toc, n);
  }

  /** Where each part sits among the words of the query. */
  lemma QueryWordsAt(toc: seq<TocEntry>, n: nat)
    requires QueryableToc(toc, n)
    ensures QueryWords(toc, n)[2] == DiscIdText(HashSum(toc, n), RawSeconds(toc, n), n)
    ensures QueryWords(toc, n)[3] == Decimal(n)
    ensures forall i :: 0 <= i < n ==> QueryWords(toc, n)[4 + i] == Decimal(FrameOffset(toc[i]))
    ensures QueryWords(toc, n)[n + 4] == Decimal(RawSeconds(toc, n) + 2)
  {
    var ws := QueryWords(toc, n);
    var offs := OffsetWords(toc, n);
    forall i | 0 <= i < n
      ensures ws[4 + i] == Decimal(FrameOffset(toc[i]))
    {
      assert ws[4 + i] == offs[i];
      OffsetWordDigits(toc, n, i);
    }
  }

  lemma QueryWordValues(toc: seq<TocEntry>, n: nat)
    requires QueryableToc(toc, n)
    ensures var ws := QueryWords(toc, n);
            ReadHex(ws[2]) == Some(DiscIdValue(HashSum(toc, n), RawSeconds(toc, n), n)) &&
            ReadDecimal(ws[3]) == Some(n) &&
            (forall i :: 0 <= i < n ==> ReadDecimal(ws[4 + i]) == Some(FrameOffset(toc[i]))) &&
            ReadDecimal(ws[n + 4]) == Some(RawSeconds(toc, n) + 2)
  {
    QueryWordsAt(toc, n);
    DiscIdTextRoundTrip(HashSum(toc, n), RawSeconds(toc, n), n);
    DecimalRoundTrip(n);
    DecimalRoundTrip(RawSeconds(toc, n) + 2);
    forall i | 0 <= i < n
      ensures ReadDecimal(Decimal(FrameOffset(toc[i]))) == Some(FrameOffset(toc[i]))
    {
      DecimalRoundTrip(FrameOffset(toc[i]));
    }
  }

  lemma {:induction false} OffsetWordDigits(toc: seq<TocEntry>, k: nat, i: nat)
    requires k <= |toc| && i < k
    ensures OffsetWords(toc, k)[i] == Decimal(FrameOffset(toc[i]))
  {
    if i < k - 1 {
      OffsetWordDigits(toc, k - 1, i);
    }
  }

  /** A one-track disc starting at 0:02 whose lead-out is at 4:35. */
  function OneTrackToc(): seq<TocEntry>
  {
    [TocEntry(0, 2, 0, 0), TocEntry(4, 35, 0, 0)]
  }

  /** Its hash is 2, its seconds field 273 and its only offset 150. */
  lemma OneTrackFields()
    ensures var toc := OneTrackToc();
            QueryableToc(toc, 1) && HashSum(toc, 1) == 2 && RawSeconds(toc, 1) == 273 &&
            OffsetsText(toc, 1) == "150 "
  {
    var toc := OneTrackToc();
    assert HashSum(toc, 1) == 2;
    assert FrameOffset(toc[0]) == 150;
    assert Decimal(150) == "150";
    assert OffsetsText(toc, 0) == "";
  }

  /** The identifier of that disc and its query, ending in the total 275. */
  lemma OneTrackExample()
    ensures var toc := OneTrackToc();
            QueryableToc(toc, 1) &&
            DiscIdValue(HashSum(toc, 1), RawSeconds(toc, 1), 1) == 0x0201_1101 &&
            QueryText(toc, 1) == "cddb query " + HexDigits(0x0201_1101, 8) + " 1 150 275"
  {
    var toc := OneTrackToc();
    OneTrackFields();
    assert DiscIdValue(2, 273, 1) == 0x0201_1101;
    assert Decimal(1) == "1";
    assert Decimal(275) == "275";
  }

  lemma OneTrackIdText()
    ensures HexDigits(0x0201_1101, 8) == "02011101"
  {
    assert HexDigits(0x0, 1) == "0";
    assert HexDigits(0x02, 2) == "02";
    assert HexDigits(0x020, 3) == "020";
    assert HexDigits(0x0201, 4) == "0201";
    assert HexDigits(0x0201_1, 5) == "02011";
    assert HexDigits(0x0201_11, 6) == "020111";
    assert HexDigits(0x0201_110, 7) == "0201110";
  }
}

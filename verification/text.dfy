/**
 * Character and number helpers shared by the CDDB client and the extractor:
 * the renderings printf produces for %d, %02d and %08x, their inverses, and
 * the scanning steps of sscanf and atoi that the C sources rely on.
 *
 * Strings are sequences of characters; a C byte is one character.
 */
module Text {

  datatype Option<+T> = None | Some(value: T)

  function Min(a: int, b: int): int { if a <= b then a else b }

  // ---------------------------------------------------------------------
  // Character classes
  // ---------------------------------------------------------------------

  predicate IsDigit(c: char) { '0' <= c <= '9' }

  /** isspace() in the C locale: blank, \t, \n, \v, \f and \r. */
  predicate IsSpace(c: char) { c == ' ' || 9 <= c as int <= 13 }

  predicate AllDigits(s: string) { forall i :: 0 <= i < |s| ==> IsDigit(s[i]) }

  function DigitChar(d: nat): (c: char)
    requires d < 10
    ensures IsDigit(c)
  {
    (48 + d) as char
  }

  function DigitValue(c: char): nat
    requires IsDigit(c)
  {
    c as int - 48
  }

  // ---------------------------------------------------------------------
  // Decimal numbers: printf "%d" and "%02d", and the value of a digit string
  // ---------------------------------------------------------------------

  /** printf("%d", n) for a non-negative n: no leading zeros. */
  function Decimal(n: nat): (s: string)
    ensures |s| >= 1 && AllDigits(s)
    ensures s[0] == '0' ==> n == 0
  {
    if n < 10 then [DigitChar(n)] else Decimal(n / 10) + [DigitChar(n % 10)]
  }

  /** printf("%02d", n): at least two digits, zero-padded. */
  function TwoDigits(n: nat): (s: string)
    ensures |s| >= 2 && AllDigits(s)
    ensures n < 100 ==> |s| == 2
  {
    if n < 10 then "0" + Decimal(n)
    else
      assert n < 100 ==> |Decimal(n / 10)| == 1;
      Decimal(n)
  }

  function DigitsValue(s: string): nat
    requires AllDigits(s)
  {
    if s == [] then 0 else 10 * DigitsValue(s[..|s| - 1]) + DigitValue(s[|s| - 1])
  }

  /** Reading back what %d printed gives the number again. */
  lemma {:induction false} DecimalRoundTrip(n: nat)
    ensures DigitsValue(Decimal(n)) == n
  {
    if n >= 10 {
      DecimalRoundTrip(n / 10);
      var s := Decimal(n);
      assert s[..|s| - 1] == Decimal(n / 10);
    }
  }

  /** A whole word read as a decimal number, if it is one. */
  function ReadDecimal(s: string): Option<nat>
  {
    if s != [] && AllDigits(s) then Some(DigitsValue(s)) else None
  }

  /** Reading back what %02d printed gives the number again. */
  lemma TwoDigitsRoundTrip(n: nat)
    ensures DigitsValue(TwoDigits(n)) == n
  {
    DecimalRoundTrip(n);
    if n < 10 {
      assert TwoDigits(n)[..1] == "0";
    }
  }

  /** Numbers below 10^k print in at most k digits. */
  lemma {:induction false} DecimalLength(n: nat, k: nat, p: nat)
    requires k >= 1 && p == Pow10(k) && n < p
    ensures |Decimal(n)| <= k
  {
    if n >= 10 {
      assert Pow10(1) == 10;
      assert Pow10(k) == 10 * Pow10(k - 1);
      DecimalLength(n / 10, k - 1, Pow10(k - 1));
    }
  }

  function Pow10(k: nat): nat { if k == 0 then 1 else 10 * Pow10(k - 1) }

  // ---------------------------------------------------------------------
  // Hexadecimal: printf "%08x"
  // ---------------------------------------------------------------------

  predicate IsHexDigit(c: char) { '0' <= c <= '9' || 'a' <= c <= 'f' }

  function HexChar(d: nat): (c: char)
    requires d < 16
    ensures IsHexDigit(c)
  {
    if d < 10 then (48 + d) as char else (87 + d) as char
  }

  function HexValue(c: char): nat
    requires IsHexDigit(c)
  {
    if c <= '9' then c as int - 48 else c as int - 87
  }

  function Pow16(k: nat): nat { if k == 0 then 1 else 16 * Pow16(k - 1) }

  /** The low k hexadecimal digits of v in lower case, most significant first:
      printf("%0<k>x", v) whenever v < 16^k. */
  function HexDigits(v: nat, k: nat): (s: string)
    ensures |s| == k && forall i :: 0 <= i < k ==> IsHexDigit(s[i])
  {
    if k == 0 then [] else HexDigits(v / 16, k - 1) + [HexChar(v % 16)]
  }

  function HexDigitsValue(s: string): nat
    requires forall i :: 0 <= i < |s| ==> IsHexDigit(s[i])
  {
    if s == [] then 0 else 16 * HexDigitsValue(s[..|s| - 1]) + HexValue(s[|s| - 1])
  }

  predicate AllHexDigits(s: string) { forall i :: 0 <= i < |s| ==> IsHexDigit(s[i]) }

  /** A whole word read as a hexadecimal number, if it is one. */
  function ReadHex(s: string): Option<nat>
  {
    if s != [] && AllHexDigits(s) then Some(HexDigitsValue(s)) else None
  }

  /** Reading back what %0kx printed gives the number again. */
  lemma {:induction false} HexRoundTrip(v: nat, k: nat)
    requires v < Pow16(k)
    ensures HexDigitsValue(HexDigits(v, k)) == v
  {
    if k > 0 {
      assert v / 16 < Pow16(k - 1);
      HexRoundTrip(v / 16, k - 1);
      var s := HexDigits(v, k);
      assert s[..|s| - 1] == HexDigits(v / 16, k - 1);
      assert HexValue(HexChar(v % 16)) == v % 16;
    }
  }

  // ---------------------------------------------------------------------
  // Prefixes, truncation, the last occurrence of a character
  // ---------------------------------------------------------------------

  predicate StartsWith(s: string, p: string) { |p| <= |s| && s[..|p|] == p }

  /** What snprintf keeps of s in a buffer of n + 1 bytes. */
  function Truncate(s: string, n: nat): (r: string)
    ensures |r| <= n && StartsWith(s, r)
    ensures |s| <= n ==> r == s
  {
    if |s| <= n then s else s[..n]
  }

  /** strrchr: the index of the last c in s, if any. */
  function LastIndexOf(s: string, c: char): (r: Option<nat>)
    ensures r.Some? ==> r.value < |s| && s[r.value] == c &&
                        forall j :: r.value < j < |s| ==> s[j] != c
    ensures r.None? ==> c !in s
  {
    if s == [] then None
    else if s[|s| - 1] == c then Some(|s| - 1)
    else LastIndexOf(s[..|s| - 1], c)
  }

  // ---------------------------------------------------------------------
  // Scanning, as sscanf and atoi do it
  // ---------------------------------------------------------------------

  function SkipSpaces(s: string): (r: string)
    ensures |r| <= |s| && r == s[|s| - |r|..]
    ensures r != [] ==> !IsSpace(r[0])
  {
    if s != [] && IsSpace(s[0]) then SkipSpaces(s[1..]) else s
  }

  /** Length of the leading run of digits. */
  function DigitRun(s: string): (k: nat)
    ensures k <= |s| && AllDigits(s[..k])
    ensures k < |s| ==> !IsDigit(s[k])
  {
    if s != [] && IsDigit(s[0]) then
      var k := 1 + DigitRun(s[1..]);
      assert s[..k] == [s[0]] + s[1..][..k - 1];
      k
    else 0
  }

  /** Length of the leading run of non-white-space characters. */
  function WordRun(s: string): (k: nat)
    ensures k <= |s| && forall i :: 0 <= i < k ==> !IsSpace(s[i])
    ensures k < |s| ==> IsSpace(s[k])
  {
    if s != [] && !IsSpace(s[0]) then 1 + WordRun(s[1..]) else 0
  }

  /** The %u conversion of sscanf, and atoi: optional white space, an optional
      sign, then at least one digit. Yields the signed value and the rest. */
  function ScanNumber(s: string): (r: Option<(int, string)>)
    ensures r.Some? ==> |r.value.1| < |s|
  {
    var t := SkipSpaces(s);
    var signed := t != [] && (t[0] == '-' || t[0] == '+');
    var u := if signed then t[1..] else t;
    var k := DigitRun(u);
    if k == 0 then None
    else
      var v: int := DigitsValue(u[..k]);
      Some((if signed && t[0] == '-' then -v else v, u[k..]))
  }

  /** atoi: the value of the leading number, 0 when there is none. */
  function Atoi(s: string): int
  {
    match ScanNumber(s)
    case Some((v, _)) => v
    case None => 0
  }

  /** The %<width>s conversion of sscanf: skip white space, then take at most
      width non-white-space characters (at least one). */
  function ScanWord(s: string, width: nat): (r: Option<(string, string)>)
    requires width > 0
    ensures r.Some? ==> 1 <= |r.value.0| <= width && forall i :: 0 <= i < |r.value.0| ==> !IsSpace(r.value.0[i])
  {
    var t := SkipSpaces(s);
    var k := Min(WordRun(t), width);
    if k == 0 then None else Some((t[..k], t[k..]))
  }

  /** A word is a run of non-space characters up to the next space. */
  lemma {:induction false} WordRunOf(w: string, rest: string)
    requires forall i :: 0 <= i < |w| ==> !IsSpace(w[i])
    requires rest == [] || IsSpace(rest[0])
    ensures WordRun(w + rest) == |w|
  {
    if w != [] {
      assert (w + rest)[1..] == w[1..] + rest;
      WordRunOf(w[1..], rest);
    }
  }

  /** A word of at most width characters after a blank, followed by white
      space or nothing, is what %<width>s reads; the rest is left. */
  lemma ScanWordOf(w: string, width: nat, rest: string)
    requires 1 <= |w| <= width
    requires forall i :: 0 <= i < |w| ==> !IsSpace(w[i])
    requires rest == [] || IsSpace(rest[0])
    ensures ScanWord(" " + w + rest, width) == Some((w, rest))
  {
    var s := " " + w + rest;
    assert s[1..] == w + rest;
    assert SkipSpaces(s) == w + rest;
    WordRunOf(w, rest);
    assert (w + rest)[..|w|] == w && (w + rest)[|w|..] == rest;
  }

  /** A number printed by %d scans back to itself. */
  lemma ScanDecimal(n: nat, rest: string)
    requires rest == [] || !IsDigit(rest[0])
    ensures ScanNumber(Decimal(n) + rest) == Some((n, rest))
  {
    var s := Decimal(n) + rest;
    assert SkipSpaces(s) == s;
    DigitRunOf(Decimal(n), rest);
    assert s[..|Decimal(n)|] == Decimal(n);
    DecimalRoundTrip(n);
  }

  lemma {:induction false} DigitRunOf(d: string, rest: string)
    requires AllDigits(d)
    requires rest == [] || !IsDigit(rest[0])
    ensures DigitRun(d + rest) == |d|
  {
    if d != [] {
      assert (d + rest)[1..] == d[1..] + rest;
      DigitRunOf(d[1..], rest);
    }
  }

  // ---------------------------------------------------------------------
  // Words separated by single blanks
  // ---------------------------------------------------------------------

  /** The words of ws, separated by one blank each. */
  function Join(ws: seq<string>): string
  {
    if |ws| == 0 then "" else if |ws| == 1 then ws[0] else ws[0] + " " + Join(ws[1..])
  }

  /** strchr: the index of the first c in s, or |s| when there is none. */
  function FirstIndexOf(s: string, c: char): (k: nat)
    ensures k <= |s| && c !in s[..k]
    ensures k < |s| ==> s[k] == c
  {
    if s == [] || s[0] == c then 0
    else
      var k := 1 + FirstIndexOf(s[1..], c);
      assert s[..k] == [s[0]] + s[1..][..k - 1];
      k
  }

  /** Split at every blank. */
  function Split(s: string): seq<string>
    decreases |s|
  {
    var k := FirstIndexOf(s, ' ');
    if k == |s| then [s] else [s[..k]] + Split(s[k + 1..])
  }

  /** The first c after a word without one is the one that follows it. */
  lemma {:induction false} FirstIndexAfter(w: string, c: char, rest: string)
    requires c !in w
    ensures FirstIndexOf(w + [c] + rest, c) == |w|
  {
    if w != [] {
      assert (w + [c] + rest)[1..] == w[1..] + [c] + rest;
      FirstIndexAfter(w[1..], c, rest);
    }
  }

  /** Splitting words joined by single blanks gives the words back. */
  lemma {:induction false} SplitJoin(ws: seq<string>)
    requires |ws| > 0
    requires forall i :: 0 <= i < |ws| ==> ' ' !in ws[i]
    ensures Split(Join(ws)) == ws
  {
    if |ws| == 1 {
      assert FirstIndexOf(ws[0], ' ') == |ws[0]|;
    } else {
      var s := Join(ws);
      assert s == ws[0] + " " + Join(ws[1..]);
      FirstIndexAfter(ws[0], ' ', Join(ws[1..]));
      assert s[..|ws[0]|] == ws[0];
      assert s[|ws[0]| + 1..] == Join(ws[1..]);
      SplitJoin(ws[1..]);
      assert [ws[0]] + ws[1..] == ws;
    }
  }

  /** Joining one more word onto a non-empty list. */
  lemma {:induction false} JoinSnoc(ws: seq<string>, w: string)
    requires |ws| > 0
    ensures Join(ws + [w]) == Join(ws) + " " + w
  {
    if |ws| > 1 {
      assert (ws + [w])[1..] == ws[1..] + [w];
      JoinSnoc(ws[1..], w);
    }
  }

  /** Joining a leading word onto a non-empty list. */
  lemma JoinCons(w: string, ws: seq<string>)
    requires |ws| > 0
    ensures Join([w] + ws) == w + " " + Join(ws)
  {
    assert ([w] + ws)[1..] == ws;
  }
}

/**
 * Turning the CDDB titles into file names: every character outside
 * [0-9A-Za-z(),.] becomes an underscore, a slash in the disc title (which
 * separates the artist from the album) becomes a dash, and no two
 * replacement characters are ever written in a row. Each track's file is
 * then named <disc>-<NN>-<track>.wav.
 */
module Filenames {
  import opened Text
  import opened Toc

  /** MAX_FILENAME_LENGTH: the longest file name POSIX allows. */
  const MaxFilenameLength: nat := 255

  /** The characters a title keeps as they are. */
  predicate Kept(c: char)
  {
    '0' <= c <= '9' || 'A' <= c <= 'Z' || 'a' <= c <= 'z' || c == '(' || c == ')' || c == ',' || c == '.'
  }

  /** The characters written in place of others. */
  predicate IsReplacement(c: char) { c == '_' || c == '-' }

  /** No two replacement characters next to each other. */
  predicate NoAdjacentReplacements(s: string)
  {
    forall i :: 0 <= i < |s| - 1 ==> !(IsReplacement(s[i]) && IsReplacement(s[i + 1]))
  }

  /** The converter's state: the name written so far and whether its last
      character replaced something (iPreviouslyModified). */
  datatype Converted = Converted(name: string, modified: bool)

  /** The state's flag says exactly whether the name ends in a replacement. */
  predicate WellConverted(st: Converted)
  {
    (st.modified <==> |st.name| >= 1 && IsReplacement(st.name[|st.name| - 1])) &&
    NoAdjacentReplacements(st.name)
  }

  /** One character of the title. */
  function ConvertStep(st: Converted, c: char, disc: bool): Converted
    requires WellConverted(st)
  {
    if disc && c == '/' then
      Converted((if st.modified then st.name[..|st.name| - 1] else st.name) + "-", true)
    else if !Kept(c) then
      if st.modified then st else Converted(st.name + "_", true)
    else Converted(st.name + [c], false)
  }

  /** A step keeps the flag exact and never writes two replacements in a
      row; the name grows by at most one character. */
  lemma ConvertStepWell(st: Converted, c: char, disc: bool)
    requires WellConverted(st)
    ensures WellConverted(ConvertStep(st, c, disc))
    ensures |ConvertStep(st, c, disc).name| <= |st.name| + 1
  {
    var st' := ConvertStep(st, c, disc);
    var n := st.name;
    if disc && c == '/' && st.modified {
      var m := n[..|n| - 1];
      assert |n| >= 2 ==> !IsReplacement(n[|n| - 2]);
      assert st'.name == m + "-";
      forall i | 0 <= i < |st'.name| - 1
        ensures !(IsReplacement(st'.name[i]) && IsReplacement(st'.name[i + 1]))
      {
        if i < |m| - 1 {
          assert st'.name[i] == n[i] && st'.name[i + 1] == n[i + 1];
        }
      }
    }
  }

  /** The state after converting the whole of s. */
  function ConvertState(s: string, disc: bool): (st: Converted)
    ensures WellConverted(st)
    decreases |s|
  {
    if s == [] then Converted("", false)
    else
      var prev := ConvertState(s[..|s| - 1], disc);
      ConvertStepWell(prev, s[|s| - 1], disc);
      ConvertStep(prev, s[|s| - 1], disc)
  }

  /** The file name a title converts to: disc is iTitleTypeFlag. */
  function Sanitize(title: string, disc: bool): string
  {
    ConvertState(title, disc).name
  }

  /** fnCDDB_ConvertTitleToFilename: a write index into a buffer as long as
      the title, stepped back when a slash replaces a replacement. */
  method ConvertTitleToFilename(title: string, disc: bool) returns (name: string)
    ensures name == Sanitize(title, disc)
  {
    var buffer := new char[|title|];
    var index: nat := 0;
    var modified := false;
    for i := 0 to |title|
      invariant index <= i
      invariant ConvertState(title[..i], disc) == Converted(buffer[..index], modified)
    {
      ConvertStateSnoc(title[..i], title[i], disc);
      PrefixSnoc(title, i);
      index, modified := ConvertChar(buffer, index, modified, title[i], disc);
    }
    assert title[..|title|] == title;
    name := buffer[..index];
  }

  /** One pass of the conversion loop: write the character, a replacement
      for it, or nothing, from the given write index on. */
  method ConvertChar(buffer: array<char>, index: nat, modified: bool, c: char, disc: bool)
    returns (index': nat, modified': bool)
    requires index < buffer.Length && WellConverted(Converted(buffer[..index], modified))
    modifies buffer
    ensures index' <= index + 1
    ensures Converted(buffer[..index'], modified') == ConvertStep(Converted(old(buffer[..index]), modified), c, disc)
  {
    index', modified' := index, modified;
    if disc && c == '/' {
      if modified {
        index' := index - 1;
      }
      Put(buffer, index', '-');
      index' := index' + 1;
      modified' := true;
    } else if !Kept(c) {
      if !modified {
        Put(buffer, index, '_');
        index' := index + 1;
        modified' := true;
      }
    } else {
      modified' := false;
      Put(buffer, index, c);
      index' := index + 1;
    }
  }

  /** szTempFilename[iFilenameIndex] = c: the characters before it stay. */
  method Put(buffer: array<char>, index: nat, c: char)
    requires index < buffer.Length
    modifies buffer
    ensures buffer[..index + 1] == old(buffer[..index]) + [c]
  {
    buffer[index] := c;
  }

  // ---------------------------------------------------------------------
  // What the conversion guarantees
  // ---------------------------------------------------------------------

  /**
   * The name is never longer than the title, holds only kept characters,
   * underscores and (for a disc title) dashes, and never two replacement
   * characters in a row.
   */
  lemma {:induction false} SanitizeShape(title: string, disc: bool)
    ensures var name := Sanitize(title, disc);
            |name| <= |title| &&
            (forall i :: 0 <= i < |name| ==> Kept(name[i]) || name[i] == '_' || (disc && name[i] == '-')) &&
            NoAdjacentReplacements(name)
    decreases |title|
  {
    if title != [] {
      var init := title[..|title| - 1];
      SanitizeShape(init, disc);
      ConvertStepWell(ConvertState(init, disc), title[|title| - 1], disc);
    }
  }

  /** A title made only of kept characters is its own file name. */
  lemma {:induction false} SanitizeKeepsCleanTitle(title: string, disc: bool)
    requires forall i :: 0 <= i < |title| ==> Kept(title[i])
    ensures Sanitize(title, disc) == title && !ConvertState(title, disc).modified
    decreases |title|
  {
    if title != [] {
      var init := title[..|title| - 1];
      SanitizeKeepsCleanTitle(init, disc);
      assert init + [title[|title| - 1]] == title;
    }
  }

  /** Converting a track title's file name again changes nothing: the
      converter ends in the same state on the name as on the title. */
  lemma {:induction false} TrackConversionIdempotent(title: string)
    ensures ConvertState(Sanitize(title, false), false) == ConvertState(title, false)
    ensures Sanitize(Sanitize(title, false), false) == Sanitize(title, false)
    decreases |title|
  {
    if title != [] {
      var init := title[..|title| - 1];
      var c := title[|title| - 1];
      TrackConversionIdempotent(init);
      var prev := ConvertState(init, false);
      var name := ConvertState(title, false).name;
      if Kept(c) || !prev.modified {
        var r := if Kept(c) then c else '_';
        assert name == prev.name + [r];
        assert name[..|name| - 1] == prev.name;
      }
    }
  }

  /** Converting one more character is one more step. */
  lemma ConvertStateSnoc(s: string, c: char, disc: bool)
    ensures ConvertState(s + [c], disc) == ConvertStep(ConvertState(s, disc), c, disc)
  {
    assert (s + [c])[..|s|] == s;
  }

  lemma PrefixSnoc(s: string, i: nat)
    requires i < |s|
    ensures s[..i + 1] == s[..i] + [s[i]]
  {
  }

  /** Appending kept characters appends them to the name and clears the
      flag. */
  lemma {:induction false} AppendKept(s: string, t: string, disc: bool)
    requires forall i :: 0 <= i < |t| ==> Kept(t[i])
    ensures t == [] ==> ConvertState(s + t, disc) == ConvertState(s, disc)
    ensures t != [] ==> ConvertState(s + t, disc) == Converted(ConvertState(s, disc).name + t, false)
    decreases |t|
  {
    if t == [] {
      assert s + t == s;
    } else {
      var init, c := t[..|t| - 1], t[|t| - 1];
      AppendKept(s, init, disc);
      SplitLast(s, t);
      KeptStep(s + init, c, disc);
      SplitLast(ConvertState(s, disc).name, t);
    }
  }

  lemma SplitLast(s: string, t: string)
    requires t != []
    ensures s + t == (s + t[..|t| - 1]) + [t[|t| - 1]]
  {
  }

  /** A kept character is appended and clears the flag. */
  lemma KeptStep(u: string, c: char, disc: bool)
    requires Kept(c)
    ensures ConvertState(u + [c], disc) == Converted(ConvertState(u, disc).name + [c], false)
  {
    ConvertStateSnoc(u, c, disc);
  }

  /** In a disc title, the separator between a clean artist and a clean
      album is converted: a slash becomes a dash ("AC/DC" gives "AC-DC"),
      and a dash, which is not kept, becomes an underscore. */
  lemma SeparatorConverted(artist: string, separator: char, album: string)
    requires separator == '/' || separator == '-'
    requires forall i :: 0 <= i < |artist| ==> Kept(artist[i])
    requires forall i :: 0 <= i < |album| ==> Kept(album[i])
    ensures Sanitize(artist + [separator] + album, true) == artist + [if separator == '/' then '-' else '_'] + album
  {
    SanitizeKeepsCleanTitle(artist, true);
    ConvertStateSnoc(artist, separator, true);
    AppendKept(artist + [separator], album, true);
  }

  /** The blanks around the slash of "artist / album" are squeezed: the
      dash overwrites the underscore written for the blank before it, and
      the blank after it is dropped ("A / B" gives "A-B"). */
  lemma SpacedSlashBecomesDash(artist: string, album: string)
    requires forall i :: 0 <= i < |artist| ==> Kept(artist[i])
    requires forall i :: 0 <= i < |album| ==> Kept(album[i])
    ensures Sanitize(artist + " / " + album, true) == artist + "-" + album
  {
    SanitizeKeepsCleanTitle(artist, true);
    ConvertStateSnoc(artist, ' ', true);
    var a1 := artist + [' '];
    assert ConvertState(a1, true) == Converted(artist + "_", true);
    ConvertStateSnoc(a1, '/', true);
    var a2 := a1 + ['/'];
    assert (artist + "_")[..|artist|] == artist;
    assert ConvertState(a2, true) == Converted(artist + "-", true);
    ConvertStateSnoc(a2, ' ', true);
    var a3 := a2 + [' '];
    assert artist + " / " + album == a3 + album;
    AppendKept(a3, album, true);
  }

  /** A disc title's file name is not stable: the dash a slash became is
      itself replaced by an underscore on a second conversion. */
  lemma DiscConversionNotIdempotent()
    ensures Sanitize(Sanitize("a/b", true), true) == "a_b" != Sanitize("a/b", true)
  {
    SeparatorConverted("a", '/', "b");
    assert "a" + ['/'] + "b" == "a/b" && "a" + ['-'] + "b" == "a-b";
    SeparatorConverted("a", '-', "b");
    assert "a" + ['_'] + "b" == "a_b";
  }

  // ---------------------------------------------------------------------
  // fnCDDB_StoreFilenames
  // ---------------------------------------------------------------------

  /** "%s-%02d-%s.wav": the file name of track number i. */
  function ComposeName(disc: string, i: nat, track: string): string
  {
    disc + "-" + TwoDigits(i) + "-" + track + ".wav"
  }

  /** The file name of track i (from 1) of a disc with the given titles. */
  function TrackFilename(disc: string, i: nat, title: string): string
  {
    ComposeName(Sanitize(disc, true), i, Sanitize(title, false))
  }

  /** The file names of all tracks of a disc, in track order. */
  function FileNames(disc: string, titles: seq<string>): (names: seq<string>)
    ensures |names| == |titles|
    ensures forall i :: 0 <= i < |titles| ==> names[i] == TrackFilename(disc, i + 1, titles[i])
  {
    seq(|titles|, i requires 0 <= i < |titles| => TrackFilename(disc, i + 1, titles[i]))
  }

  /** The index of the first name, from the given one on, that is longer
      than a file name may be, or the number of names when all fit. */
  function FirstLongFrom(names: seq<string>, from: nat): (k: nat)
    requires from <= |names|
    ensures from <= k <= |names|
    ensures forall i :: from <= i < k ==> |names[i]| <= MaxFilenameLength
    ensures k < |names| ==> |names[k]| > MaxFilenameLength
    decreases |names| - from
  {
    if from == |names| then from
    else if |names[from]| > MaxFilenameLength then from
    else FirstLongFrom(names, from + 1)
  }

  /** The index of the first track whose file name is too long, or the
      number of tracks when every name fits. */
  function FirstTooLong(disc: string, titles: seq<string>): (k: nat)
    ensures k <= |titles|
    ensures forall i :: 0 <= i < k ==> |TrackFilename(disc, i + 1, titles[i])| <= MaxFilenameLength
    ensures k < |titles| ==> |TrackFilename(disc, k + 1, titles[k])| > MaxFilenameLength
  {
    FirstLongFrom(FileNames(disc, titles), 0)
  }

  /** The tracks with the first m of them given the matching names. */
  function Renamed(tracks: seq<TrackInfo>, names: seq<string>, m: nat): (r: seq<TrackInfo>)
    ensures |r| == |tracks|
    ensures forall i :: 0 <= i < |tracks| && i < m && i < |names| ==> r[i] == tracks[i].(filename := Some(names[i]))
    ensures forall i :: 0 <= i < |tracks| && !(i < m && i < |names|) ==> r[i] == tracks[i]
  {
    seq(|tracks|, i requires 0 <= i < |tracks| =>
      if i < m && i < |names| then tracks[i].(filename := Some(names[i])) else tracks[i])
  }

  lemma RenameOneMore(tracks: seq<TrackInfo>, names: seq<string>, m: nat)
    requires m < |tracks| == |names|
    ensures Renamed(tracks, names, m + 1) == Renamed(tracks, names, m)[m := tracks[m].(filename := Some(names[m]))]
  {
  }

  /**
   * fnCDDB_StoreFilenames, with a missing disc title refused: each track
   * in turn gets its CDDB-derived file name, until one would be longer
   * than 255 characters, which fails the whole call; the tracks before it
   * keep their new names.
   */
  method StoreFilenames(tracks: array<TrackInfo>, disc: Option<string>, titles: seq<string>) returns (rv: int)
    requires |titles| == tracks.Length
    modifies tracks
    ensures disc.None? ==> rv == -1 && tracks[..] == old(tracks[..])
    ensures disc.Some? ==>
              var k := FirstTooLong(disc.value, titles);
              rv == (if k < |titles| then -1 else 0) &&
              tracks[..] == Renamed(old(tracks[..]), FileNames(disc.value, titles), k)
  {
    if disc.None? {
      return -1;
    }
    var discName := ConvertTitleToFilename(disc.value, true);
    ghost var original := tracks[..];
    ghost var k := FirstTooLong(disc.value, titles);
    ghost var names := FileNames(disc.value, titles);
    for counter := 1 to tracks.Length + 1
      invariant counter - 1 <= k
      invariant tracks[..] == Renamed(original, names, counter - 1)
    {
      var trackName := ConvertTitleToFilename(titles[counter - 1], false);
      var name := ComposeName(discName, counter, trackName);
      if |name| > MaxFilenameLength {
        return -1;
      }
      RenameOneMore(original, names, counter - 1);
      tracks[counter - 1] := tracks[counter - 1].(filename := Some(name));
    }
    return 0;
  }

  // ---------------------------------------------------------------------
  // Reading a track file name back
  // ---------------------------------------------------------------------

  /** Split a stored file name into its disc part, track number and track
      part, reading from the right: the track part holds no dash. */
  function ParseName(name: string): Option<(string, nat, string)>
  {
    if |name| < 4 || name[|name| - 4..] != ".wav" then None
    else
      var body := name[..|name| - 4];
      match LastIndexOf(body, '-')
      case None => None
      case Some(k) =>
        var head := body[..k];
        if |head| < 3 || head[|head| - 3] != '-' then None
        else match ReadDecimal(head[|head| - 2..])
          case None => None
          case Some(number) => Some((head[..|head| - 3], number, body[k + 1..]))
  }

  /** A composed name reads back as its parts whenever the track part has
      no dash and the number has two digits. */
  lemma ParseComposeName(disc: string, i: nat, track: string)
    requires '-' !in track && i < 100
    ensures ParseName(ComposeName(disc, i, track)) == Some((disc, i, track))
  {
    var nn := TwoDigits(i);
    var name := ComposeName(disc, i, track);
    var body := disc + "-" + nn + "-" + track;
    assert name == body + ".wav";
    assert name[..|name| - 4] == body && name[|name| - 4..] == ".wav";
    var k := |disc| + 3;
    assert |nn| == 2;
    assert body[k] == '-' && body[..k] == disc + "-" + nn && body[k + 1..] == track;
    LastDashIsBeforeTrack(body, k);
    var head := body[..k];
    assert head[|head| - 3] == '-' && head[|head| - 2..] == nn && head[..|head| - 3] == disc;
    TwoDigitsRoundTrip(i);
  }

  lemma LastDashIsBeforeTrack(body: string, k: nat)
    requires k < |body| && body[k] == '-' && '-' !in body[k + 1..]
    ensures LastIndexOf(body, '-') == Some(k)
  {
  }

  /** A track title's file name holds no dash. */
  lemma {:induction false} TrackNameHasNoDash(title: string)
    ensures '-' !in Sanitize(title, false)
  {
    SanitizeShape(title, false);
  }

  /** The stored file names of two different tracks of a disc with fewer
      than 100 tracks differ. */
  lemma TrackFilenamesDiffer(disc: string, i: nat, j: nat, ti: string, tj: string)
    requires i < 100 && j < 100 && i != j
    ensures TrackFilename(disc, i, ti) != TrackFilename(disc, j, tj)
  {
    TrackNameHasNoDash(ti);
    TrackNameHasNoDash(tj);
    ParseComposeName(Sanitize(disc, true), i, Sanitize(ti, false));
    ParseComposeName(Sanitize(disc, true), j, Sanitize(tj, false));
  }
}

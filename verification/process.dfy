/**
 * Extracting one chosen track: the track number is checked against the
 * disc, data tracks are refused, an output file is created under the
 * track's name or, when that exists, under the name with ".1", ".2", ...
 * appended, and the audio is copied into it.
 */
module Process {
  import opened Text
  import opened Toc
  import opened Wav
  import opened Extract

  /** Collisions after which no further name is tried. */
  const MaxDuplicates: nat := 10

  /** The buffer the alternative name is printed into (as long as a CDDB
      line), which keeps at most 255 characters of it. */
  const NameBufferLength: nat := 256

  /** What opening a new file for writing can meet. */
  datatype OpenResult = Created | AlreadyExists | OpenFailed

  /** The directory the files are written in: the names that exist, and
      the names that cannot be created for any other reason. */
  class Directory {
    var files: set<string>
    var refused: set<string>

    constructor (files: set<string>, refused: set<string>)
      ensures this.files == files && this.refused == refused
    {
      this.files := files;
      this.refused := refused;
    }

    /** open(name, O_WRONLY | O_CREAT | O_EXCL, 0644); a track without a
        name cannot be opened. */
    method Open(name: Option<string>) returns (r: OpenResult)
      modifies this
      ensures refused == old(refused)
      ensures r == Created ==> name.Some? && name.value !in old(files) && name.value !in refused &&
                               files == old(files) + {name.value}
      ensures r == AlreadyExists <==> name.Some? && name.value in old(files)
      ensures r == OpenFailed ==> name.None? || (name.value !in old(files) && name.value in refused)
      ensures r != Created ==> files == old(files)
    {
      if name.None? {
        return OpenFailed;
      }
      if name.value in files {
        return AlreadyExists;
      }
      if name.value in refused {
        return OpenFailed;
      }
      files := files + {name.value};
      return Created;
    }
  }

  // ---------------------------------------------------------------------
  // Finding a free name
  // ---------------------------------------------------------------------

  /** The outcome of the naming loop: the file created under a name, or
      the code the track fails with; and the name the track keeps. */
  datatype Placement = Placed(name: string) | Refused(rv: int)

  /** The name tried after the given number of collisions: the previous
      suffix (from the last period on) cut off once there is one, then a
      period and the new count, kept to the buffer. */
  function NextName(name: string, dupes: nat): Option<string>
  {
    if dupes == 0 then Some(Truncate(name + "." + Decimal(1), NameBufferLength - 1))
    else match LastIndexOf(name, '.')
      case None => None
      case Some(k) => Some(Truncate(name[..k] + "." + Decimal(dupes + 1), NameBufferLength - 1))
  }

  /**
   * The naming loop of fnProcessTrack after the given number of
   * collisions: an existing name is replaced by the next one until ten
   * have collided (-2) or no period is left to cut at (-1); a name that
   * cannot be created for another reason gives -2.
   */
  function Place(files: set<string>, refused: set<string>, name: Option<string>, dupes: nat): (r: (Placement, Option<string>))
    requires dupes <= MaxDuplicates
    ensures r.0.Placed? ==> r.1 == Some(r.0.name) && r.0.name !in files && r.0.name !in refused
    ensures r.0.Refused? ==> r.0.rv in {-1, -2}
    decreases MaxDuplicates - dupes
  {
    if name.None? then (Refused(-2), name)
    else if name.value in files then
      if dupes >= MaxDuplicates then (Refused(-2), name)
      else match NextName(name.value, dupes)
        case None => (Refused(-1), name)
        case Some(next) => Place(files, refused, Some(next), dupes + 1)
    else if name.value in refused then (Refused(-2), name)
    else (Placed(name.value), name)
  }

  /** The k-th alternative to a name short enough for every suffix. */
  function Alternative(name: string, k: nat): string { name + "." + Decimal(k) }

  lemma DecimalUpToTen(k: nat)
    requires k <= MaxDuplicates
    ensures |Decimal(k)| <= 2 && '.' !in Decimal(k)
  {
    DecimalLength(k, 2, 100);
    assert forall i :: 0 <= i < |Decimal(k)| ==> IsDigit(Decimal(k)[i]);
  }

  /** The last period of an alternative is the one before its count. */
  lemma LastPeriodOfAlternative(name: string, k: nat)
    requires k <= MaxDuplicates
    ensures LastIndexOf(Alternative(name, k), '.') == Some(|name|)
  {
    DecimalUpToTen(k);
    var a := Alternative(name, k);
    assert a[|name|] == '.';
    assert forall j :: |name| < j < |a| ==> a[j] == Decimal(k)[j - |name| - 1];
    LastIndexOfAfter(a, '.', |name|);
  }

  lemma {:induction false} LastIndexOfAfter(s: string, c: char, k: nat)
    requires k < |s| && s[k] == c && forall j :: k < j < |s| ==> s[j] != c
    ensures LastIndexOf(s, c) == Some(k)
    decreases |s|
  {
    if s[|s| - 1] != c {
      LastIndexOfAfter(s[..|s| - 1], c, k);
    }
  }

  /** Each collision moves to the next alternative of the original name. */
  lemma NextAlternative(name: string, dupes: nat)
    requires dupes < MaxDuplicates && |name| + 3 <= NameBufferLength - 1
    ensures NextName(if dupes == 0 then name else Alternative(name, dupes), dupes) == Some(Alternative(name, dupes + 1))
  {
    DecimalUpToTen(dupes + 1);
    if dupes > 0 {
      LastPeriodOfAlternative(name, dupes);
      assert Alternative(name, dupes)[..|name|] == name;
    }
  }

  /**
   * From the k-th alternative on, the loop settles on the first
   * alternative that does not exist: the file is created under it, unless
   * it cannot be created (-2); the loop fails with -2 once the tenth
   * exists too.
   */
  lemma {:induction false} PlaceFromAlternative(files: set<string>, refused: set<string>, name: string, k: nat)
    requires 1 <= k <= MaxDuplicates && |name| + 3 <= NameBufferLength - 1
    ensures var r := Place(files, refused, Some(Alternative(name, k)), k);
            (r.0.Placed? ==> exists j :: k <= j <= MaxDuplicates && r.0.name == Alternative(name, j)) &&
            ((forall j :: k <= j <= MaxDuplicates ==> Alternative(name, j) in files) ==> r.0 == Refused(-2)) &&
            (forall j :: k <= j <= MaxDuplicates && Alternative(name, j) !in files &&
                         (forall i :: k <= i < j ==> Alternative(name, i) in files) ==>
                         r.0 == if Alternative(name, j) in refused then Refused(-2) else Placed(Alternative(name, j)))
    decreases MaxDuplicates - k
  {
    if k < MaxDuplicates && Alternative(name, k) in files {
      NextAlternative(name, k);
      PlaceFromAlternative(files, refused, name, k + 1);
    }
  }

  /**
   * The renaming rule on a name short enough to take any suffix: the file
   * is created under the first of the name itself and its alternatives
   * ".1" to ".10" that does not exist (-2 when that one cannot be
   * created), and the track fails with -2 when all eleven exist.
   */
  lemma PlaceOutcome(files: set<string>, refused: set<string>, name: string)
    requires |name| + 3 <= NameBufferLength - 1
    ensures var r := Place(files, refused, Some(name), 0);
            (r.0.Placed? ==> r.0.name == name || exists j :: 1 <= j <= MaxDuplicates && r.0.name == Alternative(name, j)) &&
            (name in files && (forall j :: 1 <= j <= MaxDuplicates ==> Alternative(name, j) in files) ==> r.0 == Refused(-2)) &&
            (name !in files ==> r.0 == if name in refused then Refused(-2) else Placed(name)) &&
            (forall j :: 1 <= j <= MaxDuplicates && name in files && Alternative(name, j) !in files &&
                         (forall i :: 1 <= i < j ==> Alternative(name, i) in files) ==>
                         r.0 == if Alternative(name, j) in refused then Refused(-2) else Placed(Alternative(name, j)))
  {
    if name in files {
      NextAlternative(name, 0);
      PlaceFromAlternative(files, refused, name, 1);
    }
  }

  /** The naming loop of fnProcessTrack, storing each alternative name in
      the track's record as it goes. */
  method OpenOutput(dir: Directory, tracks: array<TrackInfo>, t: nat) returns (rv: int)
    requires t < tracks.Length
    modifies dir, tracks
    ensures var p := Place(old(dir.files), old(dir.refused), old(tracks[t].filename), 0);
            tracks[..] == old(tracks[..])[t := old(tracks[t]).(filename := p.1)] &&
            dir.refused == old(dir.refused) &&
            (p.0.Placed? ==> rv == 0 && dir.files == old(dir.files) + {p.0.name}) &&
            (p.0.Refused? ==> rv == p.0.rv && dir.files == old(dir.files))
  {
    var dupes := 0;
    while true
      invariant dupes <= MaxDuplicates
      invariant dir.files == old(dir.files) && dir.refused == old(dir.refused)
      invariant tracks[..] == old(tracks[..])[t := tracks[t]] && tracks[t] == old(tracks[t]).(filename := tracks[t].filename)
      invariant Place(old(dir.files), old(dir.refused), old(tracks[t].filename), 0) ==
                Place(dir.files, dir.refused, tracks[t].filename, dupes)
      decreases MaxDuplicates - dupes
    {
      var outcome := dir.Open(tracks[t].filename);
      if outcome == Created {
        return 0;
      }
      if outcome == OpenFailed {
        return -2;
      }
      if dupes >= MaxDuplicates {
        return -2;
      }
      var name := tracks[t].filename.value;
      if dupes > 0 {
        var period := LastIndexOf(name, '.');
        if period.None? {
          return -1;
        }
        name := name[..period.value];
      }
      dupes := dupes + 1;
      var next := Truncate(name + "." + Decimal(dupes), NameBufferLength - 1);
      tracks[t] := tracks[t].(filename := Some(next));
    }
  }

  // ---------------------------------------------------------------------
  // fnProcessTrack
  // ---------------------------------------------------------------------

  /**
   * fnProcessTrack for a disc whose tracks run from 1 to the table's
   * length, with one TOC entry per track: -1 for a track number outside
   * the disc, -2 for a data track, both before any file is touched; then
   * the naming loop, and the extraction into the file created, whose
   * result is the track's.
   */
  method ProcessTrack(dir: Directory, drive: Drive, header: WavHeader, tracks: array<TrackInfo>,
                      toc: seq<TocEntry>, trackNumber: int, headerSize: nat)
    returns (rv: int, written: seq<int>)
    requires tracks.Length <= |toc|
    modifies dir, drive, header, tracks
    ensures trackNumber < 1 || trackNumber > tracks.Length ==>
              rv == -1 && written == [] && unchanged(dir, drive, header, tracks)
    ensures 1 <= trackNumber <= tracks.Length && IsDataTrack(toc[trackNumber - 1]) ==>
              rv == -2 && written == [] && unchanged(dir, drive, header, tracks)
    ensures 1 <= trackNumber <= tracks.Length && !IsDataTrack(toc[trackNumber - 1]) ==>
              var t := trackNumber - 1;
              var p := Place(old(dir.files), old(dir.refused), old(tracks[t].filename), 0);
              tracks[..] == old(tracks[..])[t := old(tracks[t]).(filename := p.1)] &&
              dir.refused == old(dir.refused) &&
              (p.0.Refused? ==> rv == p.0.rv && written == [] && dir.files == old(dir.files) &&
                                unchanged(drive, header)) &&
              (p.0.Placed? ==>
                 var e := ExtractFrom(old(drive.outcomes), old(tracks[t].lbaStart), old(tracks[t].lbaEnd));
                 dir.files == old(dir.files) + {p.0.name} &&
                 drive.outcomes == e.rest && written == Addresses(old(tracks[t].lbaStart), e.blocks) &&
                 rv == (if e.ok then 0 else -2) &&
                 header.Fields() == (if e.ok then FinalHeader(e.blocks, headerSize) else Initial()))
  {
    written := [];
    if trackNumber < 1 || trackNumber > tracks.Length {
      return -1, written;
    }
    if toc[trackNumber - 1].control & DataTrackBit != 0 {
      return -2, written;
    }
    rv := OpenOutput(dir, tracks, trackNumber - 1);
    if rv < 0 {
      return;
    }
    var track := tracks[trackNumber - 1];
    rv, written := ExtractAudio(drive, header, track.lbaStart, track.lbaEnd, headerSize);
  }
}

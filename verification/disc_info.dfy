/**
 * The per-track table the extractor builds from the table of contents:
 * the block range of every track and, unless CDDB supplies them, generic
 * file names; then the user's output name for the one track chosen. Also
 * the drive speeds the extractor knows. Tracks are numbered from 1.
 */
module DiscInfo {
  import opened Text
  import opened Toc

  /** The 2-second pregap before the first track, in frames. */
  const PregapFrames: nat := 150

  /** The blocks between the audio session and the data session of a
      CD-EXTRA disc: 2.5 minutes at 75 frames per second. */
  const CdExtraGap: nat := 11250

  // ---------------------------------------------------------------------
  // fnSetSpeed
  // ---------------------------------------------------------------------

  /** The speed asked of the drive, in kbytes per second (none: the speed
      is left alone), and the description shown for it. */
  datatype SpeedSetting = SpeedSetting(kbytes: Option<nat>, description: string)

  /** The speed table of fnSetSpeed: 0 asks for the maximum. */
  function SetSpeed(speed: int): (r: SpeedSetting)
    ensures r.kbytes.None? <==> r.description == "Default"
    ensures r.kbytes.Some? <==> speed in {0, 1, 2, 3, 4, 8, 16}
  {
    match speed
    case 0 => SpeedSetting(Some(0xffff), "Maximum")
    case 1 => SpeedSetting(Some(176), "1x (176 kbytes/sec)")
    case 2 => SpeedSetting(Some(353), "2x (353 kbytes/sec)")
    case 3 => SpeedSetting(Some(528), "3x (528 kbytes/sec)")
    case 4 => SpeedSetting(Some(706), "4x (706 kbytes/sec)")
    case 8 => SpeedSetting(Some(1434), "8x (1.4 Mbytes/sec)")
    case 16 => SpeedSetting(Some(2867), "16x (2.8 Mbytes/sec)")
    case _ => SpeedSetting(None, "Default")
  }

  /** Every speed set is that many times the single speed of 176.4 kbytes
      a second, give or take 2 percent. */
  lemma SpeedsAreMultiples(speed: int)
    requires speed >= 1 && SetSpeed(speed).kbytes.Some?
    ensures speed * 176 <= SetSpeed(speed).kbytes.value <= speed * 180
  {
    assert speed in {1, 2, 3, 4, 8, 16};
  }

  /** The description of every speed set starts with the speed, as "<n>x". */
  lemma SpeedsAreNamed(speed: int)
    requires speed >= 1 && SetSpeed(speed).kbytes.Some?
    ensures StartsWith(SetSpeed(speed).description, Decimal(speed) + "x")
  {
    if speed == 16 {
      SixteenNamed();
    } else {
      DigitSpeedNamed(speed);
    }
  }

  lemma DigitSpeedNamed(speed: int)
    requires 1 <= speed < 10 && SetSpeed(speed).kbytes.Some?
    ensures StartsWith(SetSpeed(speed).description, Decimal(speed) + "x")
  {
    assert Decimal(speed) == [DigitChar(speed)];
    assert SetSpeed(speed).description[..2] == Decimal(speed) + "x";
  }

  lemma SixteenNamed()
    ensures StartsWith(SetSpeed(16).description, Decimal(16) + "x")
  {
    assert Decimal(16) == Decimal(1) + [DigitChar(6)];
    assert SetSpeed(16).description[..3] == "16x";
  }

  // ---------------------------------------------------------------------
  // Block ranges
  // ---------------------------------------------------------------------

  /** The first block of the track with TOC entry i. */
  function LbaStart(toc: seq<TocEntry>, i: nat): int
    requires i < |toc|
  {
    FrameOffset(toc[i]) - PregapFrames
  }

  /**
   * The last block read for the track with TOC entry i: the first block of
   * the next entry, less the CD-EXTRA gap when that entry is a data track
   * and track i + 1 is not the last track.
   */
  function LbaEnd(toc: seq<TocEntry>, i: nat, endingTrack: nat): int
    requires i + 1 < |toc|
  {
    var next := FrameOffset(toc[i + 1]) - PregapFrames;
    if i + 1 != endingTrack && IsDataTrack(toc[i + 1]) then next - CdExtraGap else next
  }

  /** The range of an audio track ends at the first block of the track
      that follows it: reading start to end inclusive reads that block too. */
  lemma RangeReachesNextTrack(toc: seq<TocEntry>, i: nat, endingTrack: nat)
    requires i + 1 < |toc| && !IsDataTrack(toc[i + 1])
    ensures LbaEnd(toc, i, endingTrack) == LbaStart(toc, i + 1)
  {
  }

  /** Before a data track, the range stops the CD-EXTRA gap short of it. */
  lemma RangeStopsBeforeData(toc: seq<TocEntry>, i: nat, endingTrack: nat)
    requires i + 1 < |toc| && i + 1 != endingTrack && IsDataTrack(toc[i + 1])
    ensures LbaEnd(toc, i, endingTrack) == LbaStart(toc, i + 1) - CdExtraGap
  {
  }

  // ---------------------------------------------------------------------
  // The track table: the loop of fnDiscInformation
  // ---------------------------------------------------------------------

  /** "track-%02d.wav" */
  function GenericName(number: nat): string
  {
    "track-" + TwoDigits(number) + ".wav"
  }

  /** The generic names read back: "track-", two digits or more, ".wav". */
  lemma GenericNameRoundTrip(number: nat)
    ensures var s := GenericName(number);
            StartsWith(s, "track-") && |s| == |TwoDigits(number)| + 10 &&
            s[|s| - 4..] == ".wav" && AllDigits(s[6..|s| - 4]) &&
            DigitsValue(s[6..|s| - 4]) == number
  {
    var s := GenericName(number);
    assert s[6..|s| - 4] == TwoDigits(number);
    TwoDigitsRoundTrip(number);
  }

  /** Whether the loop stores generic names: when CDDB is not queried, or
      when an information file is asked for. */
  predicate GenericNames(querying: bool, info: bool) { (querying && info) || !querying }

  /** The record for the track with TOC entry i (track number i + 1). */
  function TrackRecord(toc: seq<TocEntry>, i: nat, endingTrack: nat, generic: bool): TrackInfo
    requires i + 1 < |toc|
  {
    TrackInfo(i + 1, if generic then Some(GenericName(i + 1)) else None,
              LbaStart(toc, i), LbaEnd(toc, i, endingTrack))
  }

  /** The records of the first k tracks. */
  function TrackTable(toc: seq<TocEntry>, k: nat, endingTrack: nat, generic: bool): (r: seq<TrackInfo>)
    requires k < |toc|
    ensures |r| == k
  {
    if k == 0 then [] else TrackTable(toc, k - 1, endingTrack, generic) + [TrackRecord(toc, k - 1, endingTrack, generic)]
  }

  /** The table holds, at every position, that track's record: its number,
      its name and its block range. */
  lemma {:induction false} TrackTableAt(toc: seq<TocEntry>, k: nat, endingTrack: nat, generic: bool)
    requires k < |toc|
    ensures forall i :: 0 <= i < k ==> TrackTable(toc, k, endingTrack, generic)[i] == TrackRecord(toc, i, endingTrack, generic)
  {
    if k > 0 {
      TrackTableAt(toc, k - 1, endingTrack, generic);
    }
  }

  /** One pass of the loop: the record of track index. */
  method TrackRecordOf(toc: seq<TocEntry>, index: nat, endingTrack: nat, querying: bool, info: bool)
    returns (record: TrackInfo)
    requires 1 <= index < |toc|
    ensures record == TrackRecord(toc, index - 1, endingTrack, GenericNames(querying, info))
  {
    var name := None;
    if (querying && info) || !querying {
      name := Some("track-" + TwoDigits(index) + ".wav");
    }
    var start := FrameOffset(toc[index - 1]) - PregapFrames;
    var end := FrameOffset(toc[index]) - PregapFrames;
    if index != endingTrack && toc[index].control & DataTrackBit != 0 {
      end := end - CdExtraGap;
    }
    record := TrackInfo(index, name, start, end);
  }

  /**
   * The loop of fnDiscInformation over tracks 1 to endingTrack of a table
   * of contents holding one entry per track and the lead-out: a new table
   * of zeroed records, each then given its number, its generic name when
   * those are used, and its block range.
   */
  method FillTrackInformation(toc: seq<TocEntry>, endingTrack: nat, querying: bool, info: bool)
    returns (tracks: array<TrackInfo>)
    requires endingTrack < |toc|
    ensures fresh(tracks)
    ensures tracks[..] == TrackTable(toc, endingTrack, endingTrack, GenericNames(querying, info))
  {
    tracks := new TrackInfo[endingTrack](_ => TrackInfo(0, None, 0, 0));
    ghost var generic := GenericNames(querying, info);
    for index := 1 to endingTrack + 1
      invariant tracks[..index - 1] == TrackTable(toc, index - 1, endingTrack, generic)
    {
      var record := TrackRecordOf(toc, index, endingTrack, querying, info);
      tracks[index - 1] := record;
      assert tracks[..index] == tracks[..index - 1] + [tracks[index - 1]];
    }
    assert tracks[..] == tracks[..endingTrack];
  }

  /** Generic names are stored for every track exactly when CDDB is not
      queried or an information file is asked for. */
  lemma GenericNamesStored(toc: seq<TocEntry>, endingTrack: nat, querying: bool, info: bool, i: nat)
    requires endingTrack < |toc| && i < endingTrack
    ensures var t := TrackTable(toc, endingTrack, endingTrack, GenericNames(querying, info))[i];
            t.number == i + 1 &&
            (t.filename.Some? <==> !querying || info) &&
            (t.filename.Some? ==> t.filename.value == GenericName(i + 1))
  {
    TrackTableAt(toc, endingTrack, endingTrack, GenericNames(querying, info));
  }

  // ---------------------------------------------------------------------
  // The -o output name
  // ---------------------------------------------------------------------

  /** The position fnDiscInformation stores the -o name at: unchecked
      against the number of tracks. */
  function OutputSlot(trackNumber: int): int { trackNumber - 1 }

  /** A track number past the last track given with -o, or no track number
      at all (-1, when only the information file is asked for), stores the
      name outside the table, before the track number is ever checked. */
  lemma OutputSlotUnchecked(tracks: seq<TrackInfo>, trackNumber: int)
    requires trackNumber != 0 && !(1 <= trackNumber <= |tracks|)
    ensures !(0 <= OutputSlot(trackNumber) < |tracks|)
    ensures trackNumber == -1 ==> OutputSlot(trackNumber) == -2
  {
  }

  /**
   * The -o override with the slot checked: when a single track is chosen
   * and an output name given, that track's name is replaced and nothing
   * else changes; for track 0 (the whole disc), no name or a track outside
   * the table, the table is left alone.
   */
  method ApplyOutputName(tracks: array<TrackInfo>, trackNumber: int, output: Option<string>)
    modifies tracks
    ensures if trackNumber != 0 && output.Some? && 0 <= OutputSlot(trackNumber) < tracks.Length
            then tracks[..] == old(tracks[..])[trackNumber - 1 := old(tracks[trackNumber - 1]).(filename := output)]
            else tracks[..] == old(tracks[..])
  {
    if trackNumber == 0 {
      return;
    }
    if output.Some? && 1 <= trackNumber <= tracks.Length {
      tracks[trackNumber - 1] := tracks[trackNumber - 1].(filename := output);
    }
  }
}

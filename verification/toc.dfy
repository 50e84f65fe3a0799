/**
 * The table of contents the drive reports: one entry per track, plus the
 * lead-out entry after the last track. Addresses are minute/second/frame
 * triples at 75 frames per second; each field is an unsigned char.
 */
module Toc {
  import opened Text

  const FramesPerSecond: nat := 75

  /** The control bit that marks a data track (CDIO_DATA_TRACK). */
  const DataTrackBit: bv8 := 0x04

  datatype TocEntry = TocEntry(minute: nat, second: nat, frame: nat, control: bv8)

  /** Each address field fits the unsigned char the drive reports it in. */
  predicate ValidEntry(e: TocEntry) { e.minute < 256 && e.second < 256 && e.frame < 256 }

  predicate ValidToc(toc: seq<TocEntry>) { forall i :: 0 <= i < |toc| ==> ValidEntry(toc[i]) }

  /** min * 60 + sec: the whole seconds of an address. */
  function StartSeconds(e: TocEntry): nat { e.minute * 60 + e.second }

  /** (min * 60 + sec) * 75 + frame: the address counted in frames. */
  function FrameOffset(e: TocEntry): nat { StartSeconds(e) * FramesPerSecond + e.frame }

  predicate IsDataTrack(e: TocEntry) { e.control & DataTrackBit != 0 }

  /** What the extractor keeps per track (TrackInformation_t): the track
      number, its output file name (none yet, or the name stored), and the
      first and last logical block to read. */
  datatype TrackInfo = TrackInfo(number: int, filename: Option<string>, lbaStart: int, lbaEnd: int)
}

/**
 * Copying one track's audio off the disc: every block from the first to
 * the last address, each read retried on failure, then the WAVE header
 * rewritten with the lengths. The drive is a script of read outcomes.
 */
module Extract {
  import opened Wav

  /** The bytes of one raw audio block (CDDA_DATA_LENGTH). */
  const CddaDataLength: nat := 2352

  /** Failed reads of one block after which the track is given up. */
  const MaxReadFailures: nat := 10

  /** Whether the next read succeeds; reads beyond the script fail. */
  function NextSucceeds(outcomes: seq<bool>): bool { outcomes != [] && outcomes[0] }

  /** The script after k reads. */
  function Drop(outcomes: seq<bool>, k: nat): (r: seq<bool>)
    ensures |r| <= |outcomes|
  {
    if k <= |outcomes| then outcomes[k..] else []
  }

  /** The CD-ROM drive, as the outcomes of the raw reads still to come. */
  class Drive {
    var outcomes: seq<bool>

    constructor (outcomes: seq<bool>)
      ensures this.outcomes == outcomes
    {
      this.outcomes := outcomes;
    }

    /** One CDIOREADCDDA request for one block. */
    method ReadCdda() returns (ok: bool)
      modifies this
      ensures ok == NextSucceeds(old(outcomes)) && outcomes == Drop(old(outcomes), 1)
    {
      ok := outcomes != [] && outcomes[0];
      outcomes := if outcomes == [] then [] else outcomes[1..];
    }
  }

  // ---------------------------------------------------------------------
  // One block
  // ---------------------------------------------------------------------

  /** Whether a block was read, and how many read requests it took. */
  datatype BlockRead = BlockRead(ok: bool, requests: nat)

  /**
   * The retry loop for one block, after the given number of failures: a
   * read is issued while fewer than 10 failures are counted and the
   * previous read failed; the block is lost once 10 are counted, even when
   * the read issued by the last loop test succeeded.
   */
  function ReadBlock(outcomes: seq<bool>, failures: nat): BlockRead
    requires failures <= MaxReadFailures
    decreases MaxReadFailures - failures
  {
    if !NextSucceeds(outcomes) && failures < MaxReadFailures then
      var r := ReadBlock(Drop(outcomes, 1), failures + 1);
      BlockRead(r.ok, r.requests + 1)
    else BlockRead(failures < MaxReadFailures, 1)
  }

  /** The position of the first read that succeeds; the length of the
      script when none does. */
  function FirstSuccess(outcomes: seq<bool>): (k: nat)
    ensures k <= |outcomes| && (k < |outcomes| ==> outcomes[k])
    ensures forall i :: 0 <= i < k ==> !outcomes[i]
  {
    if outcomes == [] || outcomes[0] then 0 else 1 + FirstSuccess(outcomes[1..])
  }

  /**
   * The block is read exactly when one of the reads still allowed (ten,
   * less the failures already counted) succeeds, after as many requests
   * as it took to reach that success; otherwise after one request more
   * than the failures allowed, the last of which is not looked at.
   */
  lemma {:induction false} ReadBlockOutcome(outcomes: seq<bool>, failures: nat)
    requires failures <= MaxReadFailures
    ensures var k := FirstSuccess(outcomes);
            ReadBlock(outcomes, failures) ==
              if k < |outcomes| && k < MaxReadFailures - failures then BlockRead(true, k + 1)
              else BlockRead(false, MaxReadFailures - failures + 1)
    decreases MaxReadFailures - failures
  {
    if !NextSucceeds(outcomes) && failures < MaxReadFailures {
      ReadBlockOutcome(Drop(outcomes, 1), failures + 1);
    }
  }

  /** Ten failures lose the block even when the read after them, which
      the loop test issues, succeeds. */
  lemma ExtraReadIgnored(outcomes: seq<bool>)
    requires |outcomes| > MaxReadFailures && FirstSuccess(outcomes) == MaxReadFailures
    ensures outcomes[MaxReadFailures]
    ensures ReadBlock(outcomes, 0) == BlockRead(false, MaxReadFailures + 1)
  {
    ReadBlockOutcome(outcomes, 0);
  }

  lemma DropDrop(outcomes: seq<bool>, a: nat, b: nat)
    ensures Drop(Drop(outcomes, a), b) == Drop(outcomes, a + b)
  {
  }

  /** fnExtractAudio's retry loop for one block. */
  method ReadBlockRetrying(drive: Drive) returns (ok: bool)
    modifies drive
    ensures var b := ReadBlock(old(drive.outcomes), 0);
            ok == b.ok && drive.outcomes == Drop(old(drive.outcomes), b.requests)
  {
    ghost var script := drive.outcomes;
    var failures := 0;
    while true
      invariant failures <= MaxReadFailures
      invariant drive.outcomes == Drop(script, failures)
      invariant ReadBlock(script, 0) == ReadBlock(drive.outcomes, failures).(requests := ReadBlock(drive.outcomes, failures).requests + failures)
      decreases MaxReadFailures - failures
    {
      var read := drive.ReadCdda();
      DropDrop(script, failures, 1);
      if read || failures >= MaxReadFailures {
        break;
      }
      failures := failures + 1;
    }
    ok := failures < MaxReadFailures;
  }

  // ---------------------------------------------------------------------
  // The whole track
  // ---------------------------------------------------------------------

  /** Whether every block was read, how many blocks were, and the script
      left over. */
  datatype Extraction = Extraction(ok: bool, blocks: nat, rest: seq<bool>)

  /** The blocks from lba to end, in order, until one is lost. */
  function ExtractFrom(outcomes: seq<bool>, lba: int, end: int): Extraction
    decreases if lba <= end then end - lba + 1 else 0
  {
    if lba > end then Extraction(true, 0, outcomes)
    else
      var b := ReadBlock(outcomes, 0);
      if !b.ok then Extraction(false, 0, Drop(outcomes, b.requests))
      else
        var r := ExtractFrom(Drop(outcomes, b.requests), lba + 1, end);
        r.(blocks := r.blocks + 1)
  }

  /** The number of addresses from start to end inclusive. */
  function Span(start: int, end: int): nat { if start <= end then end - start + 1 else 0 }

  /** A complete extraction reads every address from start to end; an
      incomplete one stops short of the last. */
  lemma {:induction false} ExtractionLength(outcomes: seq<bool>, start: int, end: int)
    ensures var e := ExtractFrom(outcomes, start, end);
            (e.ok ==> e.blocks == Span(start, end)) && (!e.ok ==> e.blocks < Span(start, end))
    decreases Span(start, end)
  {
    if start <= end {
      var b := ReadBlock(outcomes, 0);
      if b.ok {
        ExtractionLength(Drop(outcomes, b.requests), start + 1, end);
      }
    }
  }

  /** One block read, the rest of the track follows. */
  lemma ExtractStep(outcomes: seq<bool>, lba: int, end: int)
    requires lba <= end
    ensures var b := ReadBlock(outcomes, 0);
            var e := ExtractFrom(Drop(outcomes, b.requests), lba + 1, end);
            ExtractFrom(outcomes, lba, end) ==
              if b.ok then e.(blocks := e.blocks + 1) else Extraction(false, 0, Drop(outcomes, b.requests))
  {
  }

  /** The addresses start, start + 1, ... of k blocks. */
  function Addresses(start: int, k: nat): (r: seq<int>)
    ensures |r| == k && forall i :: 0 <= i < k ==> r[i] == start + i
  {
    if k == 0 then [] else Addresses(start, k - 1) + [start + k - 1]
  }

  /** The audio bytes of k blocks, as the unsigned long total holds them. */
  function AudioBytes(k: nat): (r: nat)
    ensures r < ULongLimit
  {
    if k == 0 then 0 else (AudioBytes(k - 1) + CddaDataLength) % ULongLimit
  }

  /** The running total is 2352 bytes per block, modulo 2 to the 32. */
  lemma {:induction false} AudioBytesValue(k: nat)
    ensures AudioBytes(k) == (CddaDataLength * k) % ULongLimit
  {
    if k > 0 {
      AudioBytesValue(k - 1);
      var m := CddaDataLength * (k - 1);
      assert CddaDataLength * k == m + CddaDataLength;
      assert m == (m / ULongLimit) * ULongLimit + m % ULongLimit;
      ModShift(m % ULongLimit + CddaDataLength, m / ULongLimit);
    }
  }

  lemma ModShift(x: nat, q: nat)
    ensures (x + q * ULongLimit) % ULongLimit == x % ULongLimit
  {
  }

  /** The header after k blocks: the initial one set up with the file
      length (audio and header) and the audio length. */
  function FinalHeader(k: nat, headerSize: nat): Header
  {
    Setup(Initial(), (AudioBytes(k) + headerSize) % ULongLimit, AudioBytes(k))
  }

  /** After k blocks of a file below 4 GB, the header is still CD audio
      and records 2352 bytes a block, and that and the header less 8. */
  lemma HeaderAfterBlocks(k: nat, headerSize: nat)
    requires RiffPreamble <= headerSize && CddaDataLength * k + headerSize < ULongLimit
    ensures var h := FinalHeader(k, headerSize);
            IsCdAudio(h) && h.sampleLength == CddaDataLength * k &&
            h.fileLength == CddaDataLength * k + headerSize - RiffPreamble
  {
    var bytes := CddaDataLength * k;
    AudioBytesValue(k);
    Below(bytes);
    var total := bytes + headerSize;
    Below(total);
    Below(total - RiffPreamble);
    SetupKeepsCdAudio(Initial(), total, bytes);
  }

  lemma Below(x: int)
    requires 0 <= x < ULongLimit
    ensures x % ULongLimit == x
  {
  }

  /**
   * After a complete extraction of a track whose file stays below 4 GB,
   * the header records 2352 bytes for every address from start to end,
   * and a RIFF length of those bytes and the header's, less 8.
   */
  lemma CompleteTrackHeader(outcomes: seq<bool>, start: int, end: int, headerSize: nat)
    requires start <= end && ExtractFrom(outcomes, start, end).ok
    requires RiffPreamble <= headerSize && CddaDataLength * Span(start, end) + headerSize < ULongLimit
    ensures var h := FinalHeader(ExtractFrom(outcomes, start, end).blocks, headerSize);
            IsCdAudio(h) &&
            h.sampleLength == CddaDataLength * (end - start + 1) &&
            h.fileLength == CddaDataLength * (end - start + 1) + headerSize - RiffPreamble
  {
    ExtractionLength(outcomes, start, end);
    HeaderAfterBlocks(ExtractFrom(outcomes, start, end).blocks, headerSize);
  }

  /** The script left after the blocks from start up to lba: what is
      still to come is the extraction from lba on. */
  ghost predicate Remaining(script: seq<bool>, start: int, end: int, outcomes: seq<bool>, lba: int)
  {
    var e := ExtractFrom(outcomes, lba, end);
    start <= lba && ExtractFrom(script, start, end) == e.(blocks := e.blocks + (lba - start))
  }

  lemma RemainingAtEnd(script: seq<bool>, start: int, end: int, outcomes: seq<bool>, lba: int)
    requires Remaining(script, start, end, outcomes, lba) && lba > end
    ensures ExtractFrom(script, start, end) == Extraction(true, lba - start, outcomes)
  {
  }

  /** One pass of the block loop: the block at lba with its retries. */
  method CopyBlock(drive: Drive, ghost script: seq<bool>, start: int, lba: int, end: int) returns (ok: bool)
    requires lba <= end && Remaining(script, start, end, drive.outcomes, lba)
    modifies drive
    ensures ok ==> Remaining(script, start, end, drive.outcomes, lba + 1)
    ensures !ok ==> ExtractFrom(script, start, end) == Extraction(false, lba - start, drive.outcomes)
  {
    ExtractStep(drive.outcomes, lba, end);
    ok := ReadBlockRetrying(drive);
  }

  /** lTotalBytesWritten += 2352, on an unsigned long. */
  method AddBlockBytes(total: nat, ghost k: nat) returns (sum: nat)
    requires total == AudioBytes(k)
    ensures sum == AudioBytes(k + 1)
  {
    sum := (total + CddaDataLength) % ULongLimit;
  }

  /** The block loop of fnExtractAudio: the addresses of the blocks
      written, in order, and the audio bytes counted; whether all were. */
  method CopyBlocks(drive: Drive, start: int, end: int) returns (ok: bool, written: seq<int>, total: nat)
    modifies drive
    ensures var e := ExtractFrom(old(drive.outcomes), start, end);
            ok == e.ok && drive.outcomes == e.rest && written == Addresses(start, e.blocks) &&
            total == AudioBytes(e.blocks)
  {
    ghost var script := drive.outcomes;
    total := 0;
    written := [];
    var lba := start;
    while lba <= end
      invariant Remaining(script, start, end, drive.outcomes, lba)
      invariant written == Addresses(start, lba - start) && total == AudioBytes(lba - start)
      decreases end - lba + 1
    {
      ok := CopyBlock(drive, script, start, lba, end);
      if !ok {
        return;
      }
      written := written + [lba];
      total := AddBlockBytes(total, lba - start);
      lba := lba + 1;
    }
    RemainingAtEnd(script, start, end, drive.outcomes, lba);
    ok := true;
  }

  /**
   * fnExtractAudio from block start to block end inclusive, writing into
   * the given header structure (which holds whatever it held before):
   * the addresses of the blocks written in order, and 0; or -2 when a
   * block is lost. The header is initialised first and finalised with the
   * lengths only when every block was written; headerSize is the size of
   * the header on disk.
   */
  method ExtractAudio(drive: Drive, header: WavHeader, start: int, end: int, headerSize: nat)
    returns (rv: int, written: seq<int>)
    modifies drive, header
    ensures var e := ExtractFrom(old(drive.outcomes), start, end);
            drive.outcomes == e.rest && written == Addresses(start, e.blocks) && rv == (if e.ok then 0 else -2)
    ensures var e := ExtractFrom(old(drive.outcomes), start, end);
            header.Fields() == if e.ok then FinalHeader(e.blocks, headerSize) else Initial()
  {
    header.SetupWAVEheader(0, 0);
    var ok, total;
    ok, written, total := CopyBlocks(drive, start, end);
    if !ok {
      return -2, written;
    }
    header.SetupWAVEheader((total + headerSize) % ULongLimit, total);
    rv := 0;
  }
}

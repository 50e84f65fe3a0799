/**
 * The Microsoft RIFF WAVE header the extractor writes in front of the raw
 * audio: a RIFF chunk holding a PCM "fmt " chunk and a "data" chunk.
 * Length fields are unsigned longs, taken here as 32 bits wide, which is
 * what the WAVE format stores.
 */
module Wav {

  /** One more than the largest value a 32-bit unsigned long holds. */
  const ULongLimit: nat := 0x1_0000_0000

  /** The bytes of the RIFF header and of the RIFF length field, which the
      RIFF length does not count. */
  const RiffPreamble: nat := 8

  /** The fields of WavFormat_t, in their order. */
  datatype Header = Header(
    riffTag: string, fileLength: nat, waveTag: string,
    formatTag: string, formatLength: nat, encoding: nat, channels: nat,
    sampleRate: nat, bytesPerSecond: nat, blockAlign: nat, bitsPerSample: nat,
    dataTag: string, sampleLength: nat)

  /** CD audio as PCM: 2 channels of 16-bit samples at 44100 Hz. */
  predicate IsCdAudio(h: Header)
  {
    h.riffTag == "RIFF" && h.waveTag == "WAVE" && h.formatTag == "fmt " && h.dataTag == "data" &&
    h.formatLength == 16 && h.encoding == 1 && h.channels == 2 && h.sampleRate == 44100 &&
    h.bitsPerSample == 16 &&
    h.blockAlign == h.channels * h.bitsPerSample / 8 && h.bytesPerSecond == h.sampleRate * h.blockAlign
  }

  /** The header as first written, before the lengths are known. */
  function Initial(): (h: Header)
    ensures IsCdAudio(h) && h.fileLength == 0 && h.sampleLength == 0
    ensures h.blockAlign == 4 && h.bytesPerSecond == 176400
  {
    var channels := 2;
    var bits := 16;
    var rate := 44100;
    var align := channels * bits / 8;
    Header("RIFF", 0, "WAVE", "fmt ", 16, 1, channels, rate, rate * align, align, bits, "data", 0)
  }

  /** The header once the file is complete: the RIFF length is the file
      length less 8, wrapping as an unsigned long does; the data length is
      the count of audio bytes. */
  function Finalised(h: Header, fileLength: nat, bytesWritten: nat): Header
  {
    h.(fileLength := (fileLength - RiffPreamble) % ULongLimit, sampleLength := bytesWritten)
  }

  /** fnSetupWAVEheader on a header h: two zero arguments initialise it,
      anything else finalises it. */
  function Setup(h: Header, fileLength: nat, bytesWritten: nat): Header
  {
    if fileLength == 0 && bytesWritten == 0 then Initial() else Finalised(h, fileLength, bytesWritten)
  }

  /** The header structure the extractor fills in place. */
  class WavHeader {
    var riffTag: string
    var fileLength: nat
    var waveTag: string
    var formatTag: string
    var formatLength: nat
    var encoding: nat
    var channels: nat
    var sampleRate: nat
    var bytesPerSecond: nat
    var blockAlign: nat
    var bitsPerSample: nat
    var dataTag: string
    var sampleLength: nat

    /** A header whose fields hold whatever they were given. */
    constructor (h: Header)
      ensures Fields() == h
    {
      riffTag, fileLength, waveTag := h.riffTag, h.fileLength, h.waveTag;
      formatTag, formatLength, encoding, channels := h.formatTag, h.formatLength, h.encoding, h.channels;
      sampleRate, bytesPerSecond, blockAlign, bitsPerSample := h.sampleRate, h.bytesPerSecond, h.blockAlign, h.bitsPerSample;
      dataTag, sampleLength := h.dataTag, h.sampleLength;
    }

    function Fields(): Header
      reads this
    {
      Header(riffTag, fileLength, waveTag, formatTag, formatLength, encoding, channels,
             sampleRate, bytesPerSecond, blockAlign, bitsPerSample, dataTag, sampleLength)
    }

    /** fnSetupWAVEheader: the arguments are unsigned longs. */
    method SetupWAVEheader(totalLength: nat, bytesWritten: nat)
      requires totalLength < ULongLimit && bytesWritten < ULongLimit
      modifies this
      ensures Fields() == Setup(old(Fields()), totalLength, bytesWritten)
    {
      if totalLength == 0 && bytesWritten == 0 {
        Initialise();
      } else {
        fileLength := (totalLength - RiffPreamble) % ULongLimit;
        sampleLength := bytesWritten;
      }
    }

    /** The first branch of fnSetupWAVEheader: every field set for CD audio,
        the two lengths still 0. */
    method Initialise()
      modifies this
      ensures Fields() == Initial()
    {
      riffTag := "RIFF";
      waveTag := "WAVE";
      formatTag := "fmt ";
      dataTag := "data";
      fileLength := 0;
      formatLength := 0x10;
      encoding := 0x01;
      channels := 2;
      sampleRate := 44100;
      bitsPerSample := 16;
      blockAlign := channels * bitsPerSample / 8;
      bytesPerSecond := sampleRate * blockAlign;
      sampleLength := 0;
    }
  }

  // ---------------------------------------------------------------------
  // What setting the header up keeps and what it records
  // ---------------------------------------------------------------------

  /** Finalising touches only the two length fields. */
  lemma FinaliseKeepsFormat(h: Header, fileLength: nat, bytesWritten: nat)
    ensures var f := Finalised(h, fileLength, bytesWritten);
            f.(fileLength := h.fileLength, sampleLength := h.sampleLength) == h
  {
  }

  /** A CD audio header stays one through every setup. */
  lemma SetupKeepsCdAudio(h: Header, fileLength: nat, bytesWritten: nat)
    requires IsCdAudio(h)
    ensures IsCdAudio(Setup(h, fileLength, bytesWritten))
  {
  }

  /** The RIFF length field and the 8 bytes before it make up the file:
      the total length is recovered from the field whenever it is at least
      8; below 8 the subtraction wraps around. */
  lemma FileLengthRecovered(h: Header, fileLength: nat, bytesWritten: nat)
    requires fileLength < ULongLimit
    ensures var f := Finalised(h, fileLength, bytesWritten);
            f.fileLength < ULongLimit &&
            (fileLength >= RiffPreamble ==> f.fileLength + RiffPreamble == fileLength) &&
            (fileLength < RiffPreamble ==> f.fileLength == fileLength + ULongLimit - RiffPreamble)
  {
  }

  /** Finalising twice with the same lengths is finalising once. */
  lemma FinaliseIdempotent(h: Header, fileLength: nat, bytesWritten: nat)
    ensures var f := Finalised(h, fileLength, bytesWritten);
            Finalised(f, fileLength, bytesWritten) == f
  {
  }
}

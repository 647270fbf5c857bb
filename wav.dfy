/** The spoken-reply path of `speak` (src/App.jsx:49-78): the guard, and the
    44-byte canonical RIFF/WAVE header written through a `DataView` in front of
    the decoded 16-bit mono PCM returned by the speech service. */
module Wav {
  import opened LittleEndian
  import opened Wrappers

  const HEADER_SIZE: nat := 44
  const FMT_CHUNK_SIZE: nat := 16
  const WAVE_FORMAT_PCM: nat := 1
  const CHANNELS: nat := 1
  const SAMPLE_RATE: nat := 24000
  const BITS_PER_SAMPLE: nat := 16
  const BLOCK_ALIGN: nat := 2
  const BYTE_RATE: nat := 48000

  /** Offsets `o, o + 1, ..., o + k - 1`, in that order. */
  function Offsets(o: nat, k: nat): (r: seq<nat>)
    ensures |r| == k
    ensures forall i :: 0 <= i < k ==> r[i] == o + i
  {
    seq(k, i requires 0 <= i < k => o + i)
  }

  /** The bytes `setUint8` keeps of `str.charCodeAt(i)`: its low eight bits
      (the four tags written here are ASCII, so this is the character code). */
  function CharCodes(str: string): (r: seq<Byte>)
    ensures |r| == |str|
    ensures forall i :: 0 <= i < |str| ==> r[i] == str[i] as int % 256
  {
    seq(|str|, i requires 0 <= i < |str| => str[i] as int % 256)
  }

  /** The RIFF chunk descriptor: `RIFF`, the size of the rest of the file
      (36 + n), `WAVE`. */
  function RiffDescriptor(n: nat): (r: seq<Byte>)
    ensures |r| == 12
  {
    CharCodes("RIFF") + Uint32Le(36 + n) + CharCodes("WAVE")
  }

  /** The `fmt ` chunk for WAVE_FORMAT_PCM, mono, 24000 Hz, 16 bits. */
  function FmtChunk(): (r: seq<Byte>)
    ensures |r| == 24
  {
    CharCodes("fmt ") + Uint32Le(FMT_CHUNK_SIZE) + Uint16Le(WAVE_FORMAT_PCM) + Uint16Le(CHANNELS)
    + Uint32Le(SAMPLE_RATE) + Uint32Le(BYTE_RATE) + Uint16Le(BLOCK_ALIGN) + Uint16Le(BITS_PER_SAMPLE)
  }

  /** The header of the `data` chunk: `data` and the PCM length n. */
  function DataChunkHeader(n: nat): (r: seq<Byte>)
    ensures |r| == 8
  {
    CharCodes("data") + Uint32Le(n)
  }

  /** The canonical 44-byte WAVE header for `n` bytes of PCM. */
  function HeaderBytes(n: nat): (h: seq<Byte>)
    ensures |h| == HEADER_SIZE
  {
    RiffDescriptor(n) + FmtChunk() + DataChunkHeader(n)
  }

  /** A view over a fixed-size byte buffer; `stores` records, in order, every
      offset a store has written. */
  class DataView {
    const buffer: array<Byte>
    ghost var stores: seq<nat>

    constructor (buffer: array<Byte>)
      ensures this.buffer == buffer && stores == []
    {
      this.buffer := buffer;
      stores := [];
    }

    /** `setUint8(o, v)`: stores ToUint8(v) at offset `o`. */
    method SetUint8(o: nat, v: int)
      requires o < buffer.Length
      modifies buffer, this`stores
      ensures buffer[..] == old(buffer[..])[o := v % 256]
      ensures stores == old(stores) + [o]
    {
      buffer[o] := v % 256;
      stores := stores + [o];
    }

    /** `setUint16(o, v, true)`: stores ToUint16(v) at `o`, low byte first. */
    method SetUint16Le(o: nat, v: int)
      requires o + 2 <= buffer.Length
      modifies buffer, this`stores
      ensures buffer[..] == old(buffer[..])[..o] + Uint16Le(v) + old(buffer[..])[o + 2..]
      ensures stores == old(stores) + Offsets(o, 2)
    {
      var bytes := Uint16Le(v);
      buffer[o] := bytes[0];
      buffer[o + 1] := bytes[1];
      stores := stores + [o, o + 1];
    }

    /** `setUint32(o, v, true)`: stores ToUint32(v) at `o`, low byte first. */
    method SetUint32Le(o: nat, v: int)
      requires o + 4 <= buffer.Length
      modifies buffer, this`stores
      ensures buffer[..] == old(buffer[..])[..o] + Uint32Le(v) + old(buffer[..])[o + 4..]
      ensures stores == old(stores) + Offsets(o, 4)
    {
      var bytes := Uint32Le(v);
      buffer[o] := bytes[0];
      buffer[o + 1] := bytes[1];
      buffer[o + 2] := bytes[2];
      buffer[o + 3] := bytes[3];
      stores := stores + [o, o + 1, o + 2, o + 3];
    }
  }

  /** The helper `s(o, str)`: one `setUint8` per character of `str`, from `o` on. */
  method WriteTag(d: DataView, o: nat, str: string)
    requires o + |str| <= d.buffer.Length
    modifies d.buffer, d`stores
    ensures d.buffer[..] == old(d.buffer[..])[..o] + CharCodes(str) + old(d.buffer[..])[o + |str|..]
    ensures d.stores == old(d.stores) + Offsets(o, |str|)
  {
    ghost var front, codes, back := d.buffer[..o], CharCodes(str), d.buffer[o + |str|..];
    ghost var stores0 := d.stores;
    var i := 0;
    while i < |str|
      invariant 0 <= i <= |str|
      invariant d.buffer[..o + i] == front + codes[..i]
      invariant d.buffer[o + |str|..] == back
      invariant d.stores == stores0 + Offsets(o, i)
    {
      d.SetUint8(o + i, str[i] as int);
      assert codes[..i + 1] == codes[..i] + [codes[i]];
      i := i + 1;
    }
    assert d.buffer[..] == d.buffer[..o + |str|] + d.buffer[o + |str|..];
  }

  /** The header block of `speak`: a zero-filled 44-byte buffer, then the
      thirteen stores in source order (grouped here by chunk). Every offset
      0..43 is stored exactly once, in increasing order, and the buffer ends up
      holding `HeaderBytes(n)`. */
  method WriteHeader(n: nat) returns (header: array<Byte>, d: DataView)
    ensures fresh(header) && fresh(d) && d.buffer == header
    ensures header[..] == HeaderBytes(n)
    ensures d.stores == Offsets(0, HEADER_SIZE)
  {
    header := new Byte[44](_ => 0);
    d := new DataView(header);
    ghost var spec := HeaderBytes(n);
    HeaderSlices(n);
    WriteRiffDescriptor(d, n, spec);
    WriteFmtFormat(d, spec);
    OffsetsAppend(0, 12, 12);
    WriteFmtRates(d, spec);
    OffsetsAppend(0, 24, 12);
    WriteDataChunkHeader(d, n, spec);
    OffsetsAppend(0, 36, 8);
  }

  /** Line 70: `RIFF`, the RIFF size 36 + n, `WAVE` (offsets 0..11). */
  method WriteRiffDescriptor(d: DataView, n: nat, ghost spec: seq<Byte>)
    requires d.buffer.Length == |spec| == HEADER_SIZE
    requires spec[0..4] == CharCodes("RIFF") && spec[4..8] == Uint32Le(36 + n) && spec[8..12] == CharCodes("WAVE")
    modifies d.buffer, d`stores
    ensures d.buffer[..12] == spec[..12]
    ensures d.stores == old(d.stores) + Offsets(0, 12)
  {
    ghost var prev := d.buffer[..];
    WriteTag(d, 0, "RIFF");
    Advance(prev, d.buffer[..], 0, CharCodes("RIFF"), spec);
    prev := d.buffer[..];
    d.SetUint32Le(4, 36 + n);
    Advance(prev, d.buffer[..], 4, Uint32Le(36 + n), spec);
    OffsetsAppend(0, 4, 4);
    prev := d.buffer[..];
    WriteTag(d, 8, "WAVE");
    Advance(prev, d.buffer[..], 8, CharCodes("WAVE"), spec);
    OffsetsAppend(0, 8, 4);
  }

  /** Lines 70-71: the `fmt ` tag, its size 16, the format and the channel
      count (offsets 12..23). */
  method WriteFmtFormat(d: DataView, ghost spec: seq<Byte>)
    requires d.buffer.Length == |spec| == HEADER_SIZE
    requires spec[12..16] == CharCodes("fmt ") && spec[16..20] == Uint32Le(FMT_CHUNK_SIZE)
    requires spec[20..22] == Uint16Le(WAVE_FORMAT_PCM) && spec[22..24] == Uint16Le(CHANNELS)
    requires d.buffer[..12] == spec[..12]
    modifies d.buffer, d`stores
    ensures d.buffer[..24] == spec[..24]
    ensures d.stores == old(d.stores) + Offsets(12, 12)
  {
    ghost var prev := d.buffer[..];
    WriteTag(d, 12, "fmt ");
    Advance(prev, d.buffer[..], 12, CharCodes("fmt "), spec);
    prev := d.buffer[..];
    d.SetUint32Le(16, 16);
    Advance(prev, d.buffer[..], 16, Uint32Le(FMT_CHUNK_SIZE), spec);
    OffsetsAppend(12, 4, 4);
    prev := d.buffer[..];
    d.SetUint16Le(20, 1);
    Advance(prev, d.buffer[..], 20, Uint16Le(WAVE_FORMAT_PCM), spec);
    OffsetsAppend(12, 8, 2);
    prev := d.buffer[..];
    d.SetUint16Le(22, 1);
    Advance(prev, d.buffer[..], 22, Uint16Le(CHANNELS), spec);
    OffsetsAppend(12, 10, 2);
  }

  /** Lines 72-73: sample rate, byte rate, block align and bits per sample
      (offsets 24..35). */
  method WriteFmtRates(d: DataView, ghost spec: seq<Byte>)
    requires d.buffer.Length == |spec| == HEADER_SIZE
    requires spec[24..28] == Uint32Le(SAMPLE_RATE) && spec[28..32] == Uint32Le(BYTE_RATE)
    requires spec[32..34] == Uint16Le(BLOCK_ALIGN) && spec[34..36] == Uint16Le(BITS_PER_SAMPLE)
    requires d.buffer[..24] == spec[..24]
    modifies d.buffer, d`stores
    ensures d.buffer[..36] == spec[..36]
    ensures d.stores == old(d.stores) + Offsets(24, 12)
  {
    ghost var prev := d.buffer[..];
    d.SetUint32Le(24, 24000);
    Advance(prev, d.buffer[..], 24, Uint32Le(SAMPLE_RATE), spec);
    prev := d.buffer[..];
    d.SetUint32Le(28, 48000);
    Advance(prev, d.buffer[..], 28, Uint32Le(BYTE_RATE), spec);
    OffsetsAppend(24, 4, 4);
    prev := d.buffer[..];
    d.SetUint16Le(32, 2);
    Advance(prev, d.buffer[..], 32, Uint16Le(BLOCK_ALIGN), spec);
    OffsetsAppend(24, 8, 2);
    prev := d.buffer[..];
    d.SetUint16Le(34, 16);
    Advance(prev, d.buffer[..], 34, Uint16Le(BITS_PER_SAMPLE), spec);
    OffsetsAppend(24, 10, 2);
  }

  /** Line 73: `data` and the data size n (offsets 36..43). */
  method WriteDataChunkHeader(d: DataView, n: nat, ghost spec: seq<Byte>)
    requires d.buffer.Length == |spec| == HEADER_SIZE
    requires spec[36..40] == CharCodes("data") && spec[40..44] == Uint32Le(n)
    requires d.buffer[..36] == spec[..36]
    modifies d.buffer, d`stores
    ensures d.buffer[..] == spec
    ensures d.stores == old(d.stores) + Offsets(36, 8)
  {
    ghost var prev := d.buffer[..];
    WriteTag(d, 36, "data");
    Advance(prev, d.buffer[..], 36, CharCodes("data"), spec);
    prev := d.buffer[..];
    d.SetUint32Le(40, n);
    Advance(prev, d.buffer[..], 40, Uint32Le(n), spec);
    OffsetsAppend(36, 4, 4);
    assert d.buffer[..] == d.buffer[..44] && spec == spec[..44];
  }

  /** One store of `WriteHeader` extends the part of the buffer that agrees
      with the specification. */
  lemma Advance(before: seq<Byte>, after: seq<Byte>, o: nat, bytes: seq<Byte>, spec: seq<Byte>)
    requires |before| == |spec| && o + |bytes| <= |spec|
    requires before[..o] == spec[..o]
    requires after == before[..o] + bytes + before[o + |bytes|..]
    requires spec[o..o + |bytes|] == bytes
    ensures |after| == |spec| && after[..o + |bytes|] == spec[..o + |bytes|]
  {
    assert after[..o + |bytes|] == before[..o] + bytes;
    assert spec[..o + |bytes|] == spec[..o] + spec[o..o + |bytes|];
  }

  lemma OffsetsAppend(o: nat, a: nat, b: nat)
    ensures Offsets(o, a) + Offsets(o + a, b) == Offsets(o, a + b)
  {
  }

  /** Where each of the thirteen fields sits in `HeaderBytes`. */
  lemma HeaderSlices(n: nat)
    ensures HeaderBytes(n)[0..4] == CharCodes("RIFF")
    ensures HeaderBytes(n)[4..8] == Uint32Le(36 + n)
    ensures HeaderBytes(n)[8..12] == CharCodes("WAVE")
    ensures HeaderBytes(n)[12..16] == CharCodes("fmt ")
    ensures HeaderBytes(n)[16..20] == Uint32Le(FMT_CHUNK_SIZE)
    ensures HeaderBytes(n)[20..22] == Uint16Le(WAVE_FORMAT_PCM)
    ensures HeaderBytes(n)[22..24] == Uint16Le(CHANNELS)
    ensures HeaderBytes(n)[24..28] == Uint32Le(SAMPLE_RATE)
    ensures HeaderBytes(n)[28..32] == Uint32Le(BYTE_RATE)
    ensures HeaderBytes(n)[32..34] == Uint16Le(BLOCK_ALIGN)
    ensures HeaderBytes(n)[34..36] == Uint16Le(BITS_PER_SAMPLE)
    ensures HeaderBytes(n)[36..40] == CharCodes("data")
    ensures HeaderBytes(n)[40..44] == Uint32Le(n)
  {
    var h, r, f, d := HeaderBytes(n), RiffDescriptor(n), FmtChunk(), DataChunkHeader(n);
    assert h[..12] == r && h[12..36] == f && h[36..] == d;
    assert h[0..4] == r[0..4] && h[4..8] == r[4..8] && h[8..12] == r[8..12];
    assert h[12..16] == f[0..4] && h[16..20] == f[4..8] && h[20..22] == f[8..10] && h[22..24] == f[10..12];
    assert h[24..28] == f[12..16] && h[28..32] == f[16..20] && h[32..34] == f[20..22] && h[34..36] == f[22..24];
    assert h[36..40] == d[0..4] && h[40..44] == d[4..8];
  }

  /** The guard at the top of `speak`: no speech request when muted or when the
      API key is empty (`!tempApiKey`), and a request in every other case. */
  function SpeechRequested(isMuted: bool, apiKey: string): (requested: bool)
    ensures isMuted ==> !requested
    ensures apiKey == [] ==> !requested
    ensures !isMuted && |apiKey| > 0 ==> requested
  {
    !isMuted && apiKey != ""
  }

  /** `speak` for one reply: `pcmData` is the decoded audio of the speech
      service's first candidate, `None` when the request failed, the response
      held no (or an empty) audio string, or `atob` threw on an invalid one
      (the `catch` at line 77). The result is the `audio/wav` blob handed to
      the player, header followed by the PCM bytes. */
  method Speak(isMuted: bool, apiKey: string, pcmData: Option<seq<Byte>>) returns (played: Option<seq<Byte>>)
    ensures played.Some? <==> SpeechRequested(isMuted, apiKey) && pcmData.Some?
    ensures played.Some? ==> |played.value| == HEADER_SIZE + |pcmData.value|
    ensures played.Some? ==> played.value[..HEADER_SIZE] == HeaderBytes(|pcmData.value|)
    ensures played.Some? ==> played.value[HEADER_SIZE..] == pcmData.value
  {
    if !SpeechRequested(isMuted, apiKey) {
      return None;
    }
    match pcmData
    case None =>
      played := None;
    case Some(pcm) =>
      var header, view := WriteHeader(|pcm|);
      played := Some(header[..] + pcm);
  }

  /** The tags of the three chunks sit at offsets 0, 8, 12 and 36. */
  lemma HeaderTags(n: nat)
    ensures HeaderBytes(n)[0..4] == CharCodes("RIFF")
    ensures HeaderBytes(n)[8..12] == CharCodes("WAVE")
    ensures HeaderBytes(n)[12..16] == CharCodes("fmt ")
    ensures HeaderBytes(n)[36..40] == CharCodes("data")
  {
  }

  /** Every numeric field of the header reads back, little-endian, as the
      canonical PCM header for mono 16-bit 24000 Hz audio of `n` bytes; the two
      size fields wrap modulo 2^32 as `setUint32` does. */
  lemma HeaderFields(n: nat)
    ensures ReadUint32Le(HeaderBytes(n), 4) == ToUint32(36 + n)
    ensures ReadUint32Le(HeaderBytes(n), 16) == FMT_CHUNK_SIZE
    ensures ReadUint16Le(HeaderBytes(n), 20) == WAVE_FORMAT_PCM
    ensures ReadUint16Le(HeaderBytes(n), 22) == CHANNELS
    ensures ReadUint32Le(HeaderBytes(n), 24) == SAMPLE_RATE
    ensures ReadUint32Le(HeaderBytes(n), 28) == BYTE_RATE
    ensures ReadUint16Le(HeaderBytes(n), 32) == BLOCK_ALIGN
    ensures ReadUint16Le(HeaderBytes(n), 34) == BITS_PER_SAMPLE
    ensures ReadUint32Le(HeaderBytes(n), 40) == ToUint32(n)
  {
    var h := HeaderBytes(n);
    HeaderSlices(n);
    ReadUint32LeAt(h, 4, 36 + n);
    ReadUint32LeAt(h, 16, FMT_CHUNK_SIZE);
    ReadUint16LeAt(h, 20, WAVE_FORMAT_PCM);
    ReadUint16LeAt(h, 22, CHANNELS);
    ReadUint32LeAt(h, 24, SAMPLE_RATE);
    ReadUint32LeAt(h, 28, BYTE_RATE);
    ReadUint16LeAt(h, 32, BLOCK_ALIGN);
    ReadUint16LeAt(h, 34, BITS_PER_SAMPLE);
    ReadUint32LeAt(h, 40, n);
  }

  /** The header is self-consistent: byte rate = sample rate * block align,
      and block align = channels * bits per sample / 8. */
  lemma HeaderConsistent(n: nat)
    ensures ReadUint32Le(HeaderBytes(n), 28) == ReadUint32Le(HeaderBytes(n), 24) * ReadUint16Le(HeaderBytes(n), 32)
    ensures ReadUint16Le(HeaderBytes(n), 32) == ReadUint16Le(HeaderBytes(n), 22) * ReadUint16Le(HeaderBytes(n), 34) / 8
  {
    HeaderFields(n);
  }

  /** The blob is header then PCM: 44 + n bytes, the RIFF size field is the
      blob length less 8 and the data size field is the PCM length (both
      modulo 2^32), and the PCM follows the header unchanged. */
  lemma WavFileLayout(pcm: seq<Byte>)
    ensures |HeaderBytes(|pcm|) + pcm| == HEADER_SIZE + |pcm|
    ensures (HeaderBytes(|pcm|) + pcm)[HEADER_SIZE..] == pcm
    ensures ReadUint32Le(HeaderBytes(|pcm|) + pcm, 4) == ToUint32(|HeaderBytes(|pcm|) + pcm| - 8)
    ensures ReadUint32Le(HeaderBytes(|pcm|) + pcm, 40) == ToUint32(|pcm|)
  {
    var h := HeaderBytes(|pcm|);
    HeaderFields(|pcm|);
    assert ReadUint32Le(h + pcm, 4) == ReadUint32Le(h, 4);
    assert ReadUint32Le(h + pcm, 40) == ReadUint32Le(h, 40);
  }

  /** The read-back lemmas of LittleEndian, for a field found inside a longer sequence. */
  lemma ReadUint16LeAt(s: seq<Byte>, o: nat, v: int)
    requires o + 2 <= |s| && s[o..o + 2] == Uint16Le(v)
    ensures ReadUint16Le(s, o) == ToUint16(v)
  {
    assert s == s[..o] + Uint16Le(v) + s[o + 2..];
    ReadUint16LeOfUint16Le(s[..o], v, s[o + 2..]);
  }

  lemma ReadUint32LeAt(s: seq<Byte>, o: nat, v: int)
    requires o + 4 <= |s| && s[o..o + 4] == Uint32Le(v)
    ensures ReadUint32Le(s, o) == ToUint32(v)
  {
    assert s == s[..o] + Uint32Le(v) + s[o + 4..];
    ReadUint32LeOfUint32Le(s[..o], v, s[o + 4..]);
  }
}

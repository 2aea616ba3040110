/** The decisions the sound loader takes while loading a file into an
    OpenAL buffer: which sample format to decode to, the block alignment of
    ADPCM data read from the WAVE "fmt " chunk, the buffer format, and the
    guards that keep the buffer size within a C `int`. Every query to the
    decoding and audio libraries is an input here. */
module SoundLoad {
  import opened SoundFormats

  const IntMax := 0x7FFF_FFFF

  /** Masks and container code of libsndfile's format word. */
  const SubMask: bv32 := 0x0000_FFFF
  const TypeMask: bv32 := 0x0FFF_0000
  const FormatWav: bv32 := 0x0001_0000

  /** libsndfile sub-format codes the loader tests for. */
  const SubPcm24 := 0x0003
  const SubPcm32 := 0x0004
  const SubFloat := 0x0006
  const SubDouble := 0x0007
  const SubImaAdpcm := 0x0012
  const SubMsAdpcm := 0x0013
  const SubVorbis := 0x0060
  const SubOpus := 0x0064
  const SubAlac20 := 0x0071
  const SubAlac24 := 0x0072
  const SubAlac32 := 0x0073
  const SubMpegLayer1 := 0x0080
  const SubMpegLayer2 := 0x0081
  const SubMpegLayer3 := 0x0082

  /** Encodings that decode to floating point natively (or carry more than 16 bits). */
  const FloatNative: set<int> := {SubPcm24, SubPcm32, SubFloat, SubDouble, SubVorbis, SubOpus,
                                  SubAlac20, SubAlac24, SubAlac32,
                                  SubMpegLayer1, SubMpegLayer2, SubMpegLayer3}

  /** What opening the file reports: frame count, channel count and format word. */
  datatype SfInfo = SfInfo(frames: int, channels: int, format: bv32)

  function Subformat(info: SfInfo): int {
    (info.format & SubMask) as int
  }

  function Container(info: SfInfo): bv32 {
    info.format & TypeMask
  }

  /** The OpenAL extensions the loader asks about. */
  datatype Extension = ExtFloat32 | ExtIma4 | SoftBlockAlignment | SoftMsadpcm

  /** The sample format the data is decoded to before buffering. */
  datatype SampleFormat = Int16 | Float | IMA4 | MSADPCM

  predicate IsAdpcm(sf: SampleFormat) {
    sf == IMA4 || sf == MSADPCM
  }

  /** The extensions a device needs before it accepts a sample format. */
  predicate Supported(sf: SampleFormat, exts: set<Extension>) {
    match sf
    case Int16 => true
    case Float => ExtFloat32 in exts
    case IMA4 => ExtIma4 in exts && SoftBlockAlignment in exts
    case MSADPCM => SoftMsadpcm in exts && SoftBlockAlignment in exts
  }

  /** The sample type of buffer formats holding data of a sample format. */
  function SampleTypeOf(sf: SampleFormat): SampleType {
    match sf
    case Int16 => S16
    case Float => Float32
    case IMA4 => Ima4
    case MSADPCM => MsAdpcm
  }

  /** Pick the sample format from the file's sub-format: float for float-native
      encodings, the matching ADPCM format for stereo-or-less IMA or MS ADPCM
      in a WAVE container, 16-bit integers otherwise or whenever the device
      lacks an extension. */
  function ChooseSampleFormat(info: SfInfo, exts: set<Extension>): (sf: SampleFormat)
    ensures Supported(sf, exts)
    ensures sf == Float <==> Subformat(info) in FloatNative && ExtFloat32 in exts
    ensures sf == IMA4 <==> Subformat(info) == SubImaAdpcm && info.channels <= 2
                            && Container(info) == FormatWav && Supported(IMA4, exts)
    ensures sf == MSADPCM <==> Subformat(info) == SubMsAdpcm && info.channels <= 2
                               && Container(info) == FormatWav && Supported(MSADPCM, exts)
  {
    var sub := Subformat(info);
    var wavUpToStereo := info.channels <= 2 && Container(info) == FormatWav;
    if sub in FloatNative then
      (if ExtFloat32 in exts then Float else Int16)
    else if sub == SubImaAdpcm then
      (if wavUpToStereo && ExtIma4 in exts && SoftBlockAlignment in exts then IMA4 else Int16)
    else if sub == SubMsAdpcm then
      (if wavUpToStereo && SoftMsadpcm in exts && SoftBlockAlignment in exts then MSADPCM else Int16)
    else
      Int16
  }

  /** C integer division, which truncates toward zero. */
  function TDiv(a: int, b: int): (q: int)
    requires b != 0
    ensures a >= 0 && b > 0 ==> q == a / b
    ensures a < 0 && b > 0 ==> q == -((-a) / b)
  {
    if (a >= 0) == (b > 0) then
      (if a >= 0 then a / b else (-a) / (-b))
    else
      (if a >= 0 then -(a / (-b)) else -((-a) / b))
  }

  /** An unsigned 8-bit value, as C's `unsigned char`. */
  newtype byte = x: int | 0 <= x < 256

  /** Looking up the WAVE "fmt " chunk: no iterator, a failed size query,
      or the chunk's bytes together with whether reading them succeeded. */
  datatype FmtChunk = NoIterator | SizeError | Chunk(data: seq<byte>, readOk: bool)

  /** The nBlockAlign field of a WAVEFORMATEX: 16 bits at byte 12, low byte
      first (the low byte or-ed with the high byte shifted up by eight). */
  function ReadBlockAlign(data: seq<byte>): (bba: int)
    requires |data| >= 14
    ensures 0 <= bba <= 0xFFFF
  {
    data[12] as int + data[13] as int * 256
  }

  /** A 16-bit value as the two bytes of a WAVEFORMATEX field, low byte first. */
  function EncodeBlockAlign(v: int): (bytes: seq<byte>)
    requires 0 <= v <= 0xFFFF
    ensures |bytes| == 2
  {
    [(v % 256) as byte, (v / 256) as byte]
  }

  /** Writing a block alignment into the field and reading it back gives it back. */
  lemma BlockAlignRoundTrip(data: seq<byte>, v: int)
    requires |data| >= 14 && 0 <= v <= 0xFFFF
    ensures ReadBlockAlign(data[..12] + EncodeBlockAlign(v) + data[14..]) == v
  {
    var d := data[..12] + EncodeBlockAlign(v) + data[14..];
    assert d[12] as int == v % 256 && d[13] as int == v / 256;
  }

  /** And the field read back encodes to the very bytes it came from. */
  lemma BlockAlignBytesRoundTrip(data: seq<byte>)
    requires |data| >= 14
    ensures EncodeBlockAlign(ReadBlockAlign(data)) == data[12..14]
  {
  }

  /** IMA4: samples per block from bytes per block, and back. */
  function ImaSamplesPerBlock(bba: int, channels: int): int
    requires channels >= 1
  {
    TDiv(TDiv(bba, channels) - 4, 4) * 8 + 1
  }

  /** Every IMA4 samples-per-block value is one more than a multiple of 8. */
  lemma ImaSamplesOneModEight(bba: int, channels: int)
    requires channels >= 1
    ensures ImaSamplesPerBlock(bba, channels) % 8 == 1
  {
    var k := TDiv(TDiv(bba, channels) - 4, 4);
    assert ImaSamplesPerBlock(bba, channels) == 8 * k + 1;
  }

  function ImaBytesPerBlock(spl: int, channels: int): int {
    (TDiv(spl - 1, 2) + 4) * channels
  }

  /** The IMA4 conversion is kept only when converting back gives the field's value. */
  predicate ImaAccepted(bba: int, channels: int)
    requires channels >= 1
  {
    var spl := ImaSamplesPerBlock(bba, channels);
    !(spl < 1 || ImaBytesPerBlock(spl, channels) != bba)
  }

  /** MS ADPCM: samples per block from bytes per block, and back. */
  function MsSamplesPerBlock(bba: int, channels: int): int
    requires channels >= 1
  {
    (TDiv(bba, channels) - 7) * 2 + 2
  }

  function MsBytesPerBlock(spl: int, channels: int): int {
    (TDiv(spl - 2, 2) + 7) * channels
  }

  predicate MsAccepted(bba: int, channels: int)
    requires channels >= 1
  {
    var spl := MsSamplesPerBlock(bba, channels);
    !(spl < 2 || MsBytesPerBlock(spl, channels) != bba)
  }

  lemma MulDivCancel(m: int, c: int)
    requires m >= 0 && c >= 1
    ensures (m * c) / c == m && (m * c) % c == 0
  {
    var q, r := (m * c) / c, (m * c) % c;
    assert (m - q) * c == r;
    if m - q >= 1 {
      MulMonotone(1, m - q, c);
    } else if m - q <= -1 {
      MulMonotone(m - q, -1, c);
    }
  }

  lemma MulMonotone(a: int, b: int, c: int)
    requires a <= b && c >= 0
    ensures a * c <= b * c
  {
    assert b * c - a * c == (b - a) * c;
  }

  /** An IMA4 block alignment is accepted exactly when each channel gets a
      whole number of bytes, at least its 4-byte header, in 4-byte groups. */
  lemma {:induction false} ImaAcceptedIff(bba: int, channels: int)
    requires bba >= 0 && channels >= 1
    ensures ImaAccepted(bba, channels) <==>
              bba % channels == 0 && bba / channels >= 4 && (bba / channels) % 4 == 0
  {
    var x, r := bba / channels, bba % channels;
    assert bba == x * channels + r;
    if x >= 4 {
      var t, s := (x - 4) / 4, (x - 4) % 4;
      assert ImaSamplesPerBlock(bba, channels) == 8 * t + 1;
      assert ImaBytesPerBlock(8 * t + 1, channels) == (4 * t + 4) * channels;
      assert x == 4 * t + 4 + s;
      assert (4 * t + 4) * channels - bba == -(s * channels) - r;
      if s > 0 {
        MulMonotone(1, s, channels);
      }
    } else if x == 0 {
      assert ImaSamplesPerBlock(bba, channels) == -7;
    } else {
      assert ImaSamplesPerBlock(bba, channels) == 1;
      MulMonotone(x + 1, 4, channels);
      assert bba < (x + 1) * channels;
    }
  }

  /** Converting a valid IMA4 block size to bytes and back gives it back. */
  lemma ImaRoundTrip(spl: int, channels: int)
    requires spl >= 1 && spl % 8 == 1 && channels >= 1
    ensures ImaAccepted(ImaBytesPerBlock(spl, channels), channels)
    ensures ImaSamplesPerBlock(ImaBytesPerBlock(spl, channels), channels) == spl
  {
    var k := spl / 8;
    var m := 4 * k + 4;
    assert spl == 8 * k + 1 && TDiv(spl - 1, 2) == 4 * k;
    assert ImaBytesPerBlock(spl, channels) == m * channels;
    MulDivCancel(m, channels);
    MulMonotone(0, m, channels);
    assert TDiv(m * channels, channels) == m;
  }

  /** An MS ADPCM block alignment is accepted exactly when each channel gets
      a whole number of bytes and at least its 7-byte header. */
  lemma {:induction false} MsAcceptedIff(bba: int, channels: int)
    requires bba >= 0 && channels >= 1
    ensures MsAccepted(bba, channels) <==> bba % channels == 0 && bba / channels >= 7
  {
    var x, r := bba / channels, bba % channels;
    assert bba == x * channels + r;
    if x >= 7 {
      assert MsSamplesPerBlock(bba, channels) == 2 * x - 12;
      assert MsBytesPerBlock(2 * x - 12, channels) == x * channels;
    }
  }

  /** Converting a valid MS ADPCM block size to bytes and back gives it back. */
  lemma MsRoundTrip(spl: int, channels: int)
    requires spl >= 2 && spl % 2 == 0 && channels >= 1
    ensures MsAccepted(MsBytesPerBlock(spl, channels), channels)
    ensures MsSamplesPerBlock(MsBytesPerBlock(spl, channels), channels) == spl
  {
    var k := (spl - 2) / 2;
    assert MsBytesPerBlock(spl, channels) == (k + 7) * channels;
    MulDivCancel(k + 7, channels);
  }

  /** The block layout the buffer is loaded with. */
  datatype Alignment = Alignment(sampleFormat: SampleFormat, splBlockAlign: int, byteBlockAlign: int)

  /** Samples and bytes per block agree with the sample format: one frame of
      2 or 4 bytes per channel for PCM, and for ADPCM a block size whose
      byte size converts back to it. */
  predicate Consistent(a: Alignment, channels: int) {
    match a.sampleFormat
    case Int16 => a.splBlockAlign == 1 && a.byteBlockAlign == 2 * channels
    case Float => a.splBlockAlign == 1 && a.byteBlockAlign == 4 * channels
    case IMA4 => a.splBlockAlign >= 1 && a.splBlockAlign % 8 == 1
                 && a.byteBlockAlign == ImaBytesPerBlock(a.splBlockAlign, channels)
    case MSADPCM => a.splBlockAlign >= 2 && a.splBlockAlign % 2 == 0
                    && a.byteBlockAlign == MsBytesPerBlock(a.splBlockAlign, channels)
  }

  /** IMA4: the field converted to samples per block, kept only when
      converting back gives the field again, else 16-bit integers. */
  function ImaAlignment(bba: int, channels: int): (a: Alignment)
    requires channels >= 1
    ensures a.sampleFormat == IMA4 || a.sampleFormat == Int16
    ensures a.sampleFormat == IMA4 <==> ImaAccepted(bba, channels)
    ensures a.sampleFormat == IMA4 ==> Consistent(a, channels) && a.byteBlockAlign == bba
  {
    var spl := ImaSamplesPerBlock(bba, channels);
    ImaSamplesOneModEight(bba, channels);
    if spl < 1 || ImaBytesPerBlock(spl, channels) != bba then Alignment(Int16, spl, bba)
    else Alignment(IMA4, spl, bba)
  }

  /** MS ADPCM: the same check with its own conversion. */
  function MsAlignment(bba: int, channels: int): (a: Alignment)
    requires channels >= 1
    ensures a.sampleFormat == MSADPCM || a.sampleFormat == Int16
    ensures a.sampleFormat == MSADPCM <==> MsAccepted(bba, channels)
    ensures a.sampleFormat == MSADPCM ==> Consistent(a, channels) && a.byteBlockAlign == bba
  {
    var spl := MsSamplesPerBlock(bba, channels);
    if spl < 2 || MsBytesPerBlock(spl, channels) != bba then Alignment(Int16, spl, bba)
    else Alignment(MSADPCM, spl, bba)
  }

  /** The ADPCM block alignment from the "fmt " chunk; a missing, short or
      unreadable chunk falls back to 16-bit integers. */
  function AdpcmAlignment(sf: SampleFormat, chunk: FmtChunk, channels: int): (a: Alignment)
    requires IsAdpcm(sf) && channels >= 1
    ensures a.sampleFormat == sf || a.sampleFormat == Int16
    ensures IsAdpcm(a.sampleFormat) <==>
              chunk.Chunk? && |chunk.data| >= 14 && chunk.readOk
              && (if sf == IMA4 then ImaAccepted(ReadBlockAlign(chunk.data), channels)
                  else MsAccepted(ReadBlockAlign(chunk.data), channels))
    ensures IsAdpcm(a.sampleFormat) ==>
              Consistent(a, channels) && a.byteBlockAlign == ReadBlockAlign(chunk.data)
  {
    if !chunk.Chunk? || |chunk.data| < 14 then Alignment(Int16, 0, 0)
    else if !chunk.readOk then Alignment(Int16, 0, 0)
    else if sf == IMA4 then ImaAlignment(ReadBlockAlign(chunk.data), channels)
    else MsAlignment(ReadBlockAlign(chunk.data), channels)
  }

  /** The block alignment for a chosen sample format: ADPCM as read from the
      chunk, and one frame per block for the PCM formats (including an ADPCM
      file that fell back to 16-bit integers). */
  function BlockAlignment(sf: SampleFormat, chunk: FmtChunk, channels: int): (a: Alignment)
    requires channels >= 1
    ensures Consistent(a, channels)
    ensures a.sampleFormat == sf || a.sampleFormat == Int16
    ensures IsAdpcm(a.sampleFormat) <==>
              IsAdpcm(sf) && chunk.Chunk? && |chunk.data| >= 14 && chunk.readOk
              && (if sf == IMA4 then ImaAccepted(ReadBlockAlign(chunk.data), channels)
                  else MsAccepted(ReadBlockAlign(chunk.data), channels))
    ensures IsAdpcm(a.sampleFormat) ==> a.byteBlockAlign == ReadBlockAlign(chunk.data)
    ensures !IsAdpcm(sf) ==> a.sampleFormat == sf
    ensures a.splBlockAlign >= 1 && a.byteBlockAlign >= 1
  {
    var adpcm := if IsAdpcm(sf) then AdpcmAlignment(sf, chunk, channels) else Alignment(sf, 0, 0);
    var a := match adpcm.sampleFormat
      case Int16 => Alignment(Int16, 1, channels * 2)
      case Float => Alignment(Float, 1, channels * 4)
      case _ => adpcm;
    ConsistentIsPositive(a, channels);
    a
  }

  /** Every consistent alignment has positive block sizes. */
  lemma ConsistentIsPositive(a: Alignment, channels: int)
    requires channels >= 1 && Consistent(a, channels)
    ensures a.splBlockAlign >= 1 && a.byteBlockAlign >= 1
  {
    match a.sampleFormat
    case IMA4 => MulMonotone(1, TDiv(a.splBlockAlign - 1, 2) + 4, channels);
    case MSADPCM => MulMonotone(1, TDiv(a.splBlockAlign - 2, 2) + 7, channels);
    case _ =>
  }

  /** The buffer format for a channel count and sample format; None stands
      for the "no format" value the loader rejects. Three and four channels
      are loaded only as ambisonic B-Format, and only as PCM. */
  function OutputFormat(channels: int, sf: SampleFormat, ambisonic: bool): (f: Option<AlFormat>)
    ensures f.Some? ==> ChannelCount(LayoutOf(f.value)) == channels && SampleOf(f.value) == SampleTypeOf(sf)
    ensures f.Some? && channels >= 3 ==> LayoutOf(f.value) in {BFormat2D, BFormat3D}
    ensures f.Some? && channels <= 2 ==> LayoutOf(f.value) == (if channels == 1 then Mono else Stereo)
    ensures f.Some? <==> channels == 1 || channels == 2
                         || ((channels == 3 || channels == 4) && ambisonic && !IsAdpcm(sf))
  {
    if channels == 1 then
      Some(match sf
           case Int16 => Mono16
           case Float => MonoFloat32
           case IMA4 => MonoIma4
           case MSADPCM => MonoMsadpcm)
    else if channels == 2 then
      Some(match sf
           case Int16 => Stereo16
           case Float => StereoFloat32
           case IMA4 => StereoIma4
           case MSADPCM => StereoMsadpcm)
    else if channels == 3 then
      if ambisonic && sf == Int16 then Some(BFormat2D16)
      else if ambisonic && sf == Float then Some(BFormat2DFloat32)
      else None
    else if channels == 4 then
      if ambisonic && sf == Int16 then Some(BFormat3D16)
      else if ambisonic && sf == Float then Some(BFormat3DFloat32)
      else None
    else
      None
  }

  /** For a given channel count, different sample formats never share a buffer format. */
  lemma OutputFormatInjective(channels: int, s1: SampleFormat, s2: SampleFormat, ambisonic: bool)
    requires OutputFormat(channels, s1, ambisonic).Some?
    requires OutputFormat(channels, s1, ambisonic) == OutputFormat(channels, s2, ambisonic)
    ensures s1 == s2
  {
    assert SampleTypeOf(s1) == SampleTypeOf(s2);
  }

  /** The guard against buffers larger than an `int`: it refuses exactly the
      files whose whole blocks take more than INT_MAX bytes. */
  function TooManySamples(frames: int, spl: int, bba: int): (tooMany: bool)
    requires frames >= 1 && spl >= 1 && bba >= 1
    ensures tooMany <==> frames / spl * bba > IntMax
  {
    SizeGuardExact(frames / spl, bba);
    frames / spl > IntMax / bba
  }

  lemma SizeGuardExact(q: int, b: int)
    requires q >= 0 && b >= 1
    ensures q > IntMax / b <==> q * b > IntMax
  {
    var d := IntMax / b;
    assert IntMax == d * b + IntMax % b;
    if q > d {
      MulMonotone(d + 1, q, b);
    } else {
      MulMonotone(q, d, b);
    }
  }

  datatype LoadError = CannotOpen | BadSampleCount | UnsupportedChannels | TooManyFrames | ReadFailed

  datatype Outcome<T> = Ok(value: T) | Err(error: LoadError)

  /** Everything decided before the samples are read. */
  datatype Plan = Plan(format: AlFormat, alignment: Alignment, channels: int, frames: int)

  /** A plan the read can go ahead with: consistent, positive, and whose
      whole blocks fit in an `int`. */
  predicate Fits(p: Plan) {
    && p.channels >= 1 && p.frames >= 1
    && Consistent(p.alignment, p.channels)
    && p.alignment.splBlockAlign >= 1 && p.alignment.byteBlockAlign >= 1
    && p.frames / p.alignment.splBlockAlign * p.alignment.byteBlockAlign <= IntMax
  }

  /** Open, choose the sample format, align, pick the buffer format and
      check the size, stopping at the first problem. */
  function PlanLoad(info: Option<SfInfo>, exts: set<Extension>, chunk: FmtChunk, ambisonic: bool): (r: Outcome<Plan>)
    requires info.Some? ==> info.value.channels >= 1
    ensures info.None? <==> r == Err(CannotOpen)
    ensures info.Some? ==> (info.value.frames < 1 <==> r == Err(BadSampleCount))
    ensures info.Some? && info.value.frames >= 1 ==>
              (r == Err(UnsupportedChannels) <==>
                 info.value.channels > 4 || (info.value.channels >= 3 && !ambisonic))
    ensures r.Ok? ==>
              && Fits(r.value)
              && r.value.frames == info.value.frames && r.value.channels == info.value.channels
              && ChannelCount(LayoutOf(r.value.format)) == info.value.channels
              && SampleOf(r.value.format) == SampleTypeOf(r.value.alignment.sampleFormat)
              && Supported(r.value.alignment.sampleFormat, exts)
    // the plan uses the chosen sample format's alignment and its buffer format
    ensures r.Ok? ==>
              var a := BlockAlignment(ChooseSampleFormat(info.value, exts), chunk, info.value.channels);
              r.value.alignment == a && OutputFormat(info.value.channels, a.sampleFormat, ambisonic) == Some(r.value.format)
    // a file with frames and a supported channel count is refused only by the size guard
    ensures info.Some? && info.value.frames >= 1 && r != Err(UnsupportedChannels) ==>
              var a := BlockAlignment(ChooseSampleFormat(info.value, exts), chunk, info.value.channels);
              && (r.Ok? <==> info.value.frames / a.splBlockAlign * a.byteBlockAlign <= IntMax)
              && (r == Err(TooManyFrames) <==> info.value.frames / a.splBlockAlign * a.byteBlockAlign > IntMax)
  {
    match info
    case None => Err(CannotOpen)
    case Some(sfinfo) =>
      if sfinfo.frames < 1 then Err(BadSampleCount)
      else
        var a := BlockAlignment(ChooseSampleFormat(sfinfo, exts), chunk, sfinfo.channels);
        assert sfinfo.channels >= 3 ==> !IsAdpcm(ChooseSampleFormat(sfinfo, exts));
        match OutputFormat(sfinfo.channels, a.sampleFormat, ambisonic)
        case None => Err(UnsupportedChannels)
        case Some(format) =>
          if TooManySamples(sfinfo.frames, a.splBlockAlign, a.byteBlockAlign) then Err(TooManyFrames)
          else Ok(Plan(format, a, sfinfo.channels, sfinfo.frames))
  }

  /** How much the read asks for: frames for PCM, raw bytes of whole blocks for ADPCM. */
  function Request(p: Plan): int
    requires Fits(p)
  {
    if IsAdpcm(p.alignment.sampleFormat) then
      p.frames / p.alignment.splBlockAlign * p.alignment.byteBlockAlign
    else
      p.frames
  }

  /** ADPCM reads count whole blocks: some block was read exactly when at
      least one block's bytes came back, and sizing the blocks again gives
      a whole number of blocks no larger than what was read. */
  lemma AdpcmRead(got: int, spl: int, bba: int)
    requires spl >= 1 && bba >= 1
    ensures (got > 0 && got / bba * spl >= 1) <==> got >= bba
    ensures got >= bba ==> (got / bba * spl) / spl * bba == got / bba * bba
    ensures got >= bba ==> bba <= got / bba * bba <= got && (got / bba * bba) % bba == 0
  {
    var k := got / bba;
    if got >= bba {
      MulMonotone(1, k, spl);
      MulDivCancel(k, spl);
      MulMonotone(1, k, bba);
      MulDivCancel(k, bba);
    } else if got > 0 {
      assert k == 0;
    }
  }

  /** PCM reads count frames: the bytes of at most the guarded number of
      frames fit in an `int`. */
  lemma PcmRead(got: int, frames: int, bba: int)
    requires 1 <= got <= frames && bba >= 1 && frames * bba <= IntMax
    ensures bba <= got * bba <= IntMax && (got * bba) % bba == 0
  {
    MulMonotone(got, frames, bba);
    MulMonotone(1, got, bba);
    MulDivCancel(got, bba);
  }

  /** What is handed to the audio buffer. */
  datatype Loaded = Loaded(format: AlFormat, numBytes: int, unpackBlockAlign: Option<int>)

  /** After the read returned `got` (frames for PCM, bytes for ADPCM, never
      more than requested): count the frames read, fail when there are none,
      and size the buffer by whole blocks. */
  function FinishLoad(p: Plan, got: int): (r: Outcome<Loaded>)
    requires Fits(p)
    requires got <= Request(p)
    ensures r.Err? ==> r.error == ReadFailed
    ensures r.Ok? <==> (if IsAdpcm(p.alignment.sampleFormat) then got >= p.alignment.byteBlockAlign else got >= 1)
    ensures r.Ok? ==>
              && r.value.format == p.format
              && 1 <= r.value.numBytes <= IntMax
              && r.value.numBytes % p.alignment.byteBlockAlign == 0
              && (IsAdpcm(p.alignment.sampleFormat) ==> r.value.numBytes <= got)
              && (!IsAdpcm(p.alignment.sampleFormat) ==> r.value.numBytes == got * p.alignment.byteBlockAlign)
              && (IsAdpcm(p.alignment.sampleFormat) ==>
                    r.value.numBytes == got / p.alignment.byteBlockAlign * p.alignment.byteBlockAlign)
              && r.value.unpackBlockAlign == (if p.alignment.splBlockAlign > 1 then Some(p.alignment.splBlockAlign) else None)
  {
    var spl, bba := p.alignment.splBlockAlign, p.alignment.byteBlockAlign;
    var unpack := if spl > 1 then Some(spl) else None;
    if IsAdpcm(p.alignment.sampleFormat) then
      AdpcmRead(got, spl, bba);
      var numFrames := if got > 0 then got / bba * spl else got;
      if numFrames < 1 then Err(ReadFailed)
      else Ok(Loaded(p.format, numFrames / spl * bba, unpack))
    else
      var numFrames := got;
      if numFrames < 1 then Err(ReadFailed)
      else
        PcmRead(got, p.frames, bba);
        Ok(Loaded(p.format, numFrames / spl * bba, unpack))
  }
}

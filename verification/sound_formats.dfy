/** The OpenAL buffer formats the sound loader can name, and the name it
    logs for each. */
module SoundFormats {

  /** The buffer formats the name lookup lists, by channel layout and sample type. */
  datatype AlFormat =
    | Mono8 | Mono16 | MonoFloat32 | MonoMulaw
    | MonoAlaw | MonoIma4 | MonoMsadpcm | Stereo8
    | Stereo16 | StereoFloat32 | StereoMulaw | StereoAlaw
    | StereoIma4 | StereoMsadpcm | Quad8 | Quad16
    | Quad32 | QuadMulaw | Surround51x8 | Surround51x16
    | Surround51x32 | Surround51Mulaw | Surround61x8 | Surround61x16
    | Surround61x32 | Surround61Mulaw | Surround71x8 | Surround71x16
    | Surround71x32 | Surround71Mulaw | BFormat2D8 | BFormat2D16
    | BFormat2DFloat32 | BFormat2DMulaw | BFormat3D8 | BFormat3D16
    | BFormat3DFloat32 | BFormat3DMulaw | Uhj2Chn8 | Uhj2Chn16
    | Uhj2ChnFloat32 | Uhj3Chn8 | Uhj3Chn16 | Uhj3ChnFloat32
    | Uhj4Chn8 | Uhj4Chn16 | Uhj4ChnFloat32

  /** The channel layout of a format. */
  datatype ChannelLayout =
    | Mono | Stereo | Quad | Surround51 | Surround61 | Surround71
    | BFormat2D | BFormat3D | Uhj2 | Uhj3 | Uhj4

  /** The encoding of one sample of a format. */
  datatype SampleType = U8 | S16 | Float32 | MuLaw | ALaw | Ima4 | MsAdpcm

  /** An OpenAL format enumerant: one of the listed formats, or any other
      value (the "no format" value among them). */
  datatype AlEnum = Listed(format: AlFormat) | Unlisted(code: int)

  const UnknownFormat := "Unknown Format"

  function LayoutOf(f: AlFormat): ChannelLayout {
    match f
    case Mono8 => Mono
    case Mono16 => Mono
    case MonoFloat32 => Mono
    case MonoMulaw => Mono
    case MonoAlaw => Mono
    case MonoIma4 => Mono
    case MonoMsadpcm => Mono
    case Stereo8 => Stereo
    case Stereo16 => Stereo
    case StereoFloat32 => Stereo
    case StereoMulaw => Stereo
    case StereoAlaw => Stereo
    case StereoIma4 => Stereo
    case StereoMsadpcm => Stereo
    case Quad8 => Quad
    case Quad16 => Quad
    case Quad32 => Quad
    case QuadMulaw => Quad
    case Surround51x8 => Surround51
    case Surround51x16 => Surround51
    case Surround51x32 => Surround51
    case Surround51Mulaw => Surround51
    case Surround61x8 => Surround61
    case Surround61x16 => Surround61
    case Surround61x32 => Surround61
    case Surround61Mulaw => Surround61
    case Surround71x8 => Surround71
    case Surround71x16 => Surround71
    case Surround71x32 => Surround71
    case Surround71Mulaw => Surround71
    case BFormat2D8 => BFormat2D
    case BFormat2D16 => BFormat2D
    case BFormat2DFloat32 => BFormat2D
    case BFormat2DMulaw => BFormat2D
    case BFormat3D8 => BFormat3D
    case BFormat3D16 => BFormat3D
    case BFormat3DFloat32 => BFormat3D
    case BFormat3DMulaw => BFormat3D
    case Uhj2Chn8 => Uhj2
    case Uhj2Chn16 => Uhj2
    case Uhj2ChnFloat32 => Uhj2
    case Uhj3Chn8 => Uhj3
    case Uhj3Chn16 => Uhj3
    case Uhj3ChnFloat32 => Uhj3
    case Uhj4Chn8 => Uhj4
    case Uhj4Chn16 => Uhj4
    case Uhj4ChnFloat32 => Uhj4
  }

  function SampleOf(f: AlFormat): SampleType {
    match f
    case Mono8 => U8
    case Mono16 => S16
    case MonoFloat32 => Float32
    case MonoMulaw => MuLaw
    case MonoAlaw => ALaw
    case MonoIma4 => Ima4
    case MonoMsadpcm => MsAdpcm
    case Stereo8 => U8
    case Stereo16 => S16
    case StereoFloat32 => Float32
    case StereoMulaw => MuLaw
    case StereoAlaw => ALaw
    case StereoIma4 => Ima4
    case StereoMsadpcm => MsAdpcm
    case Quad8 => U8
    case Quad16 => S16
    case Quad32 => Float32
    case QuadMulaw => MuLaw
    case Surround51x8 => U8
    case Surround51x16 => S16
    case Surround51x32 => Float32
    case Surround51Mulaw => MuLaw
    case Surround61x8 => U8
    case Surround61x16 => S16
    case Surround61x32 => Float32
    case Surround61Mulaw => MuLaw
    case Surround71x8 => U8
    case Surround71x16 => S16
    case Surround71x32 => Float32
    case Surround71Mulaw => MuLaw
    case BFormat2D8 => U8
    case BFormat2D16 => S16
    case BFormat2DFloat32 => Float32
    case BFormat2DMulaw => MuLaw
    case BFormat3D8 => U8
    case BFormat3D16 => S16
    case BFormat3DFloat32 => Float32
    case BFormat3DMulaw => MuLaw
    case Uhj2Chn8 => U8
    case Uhj2Chn16 => S16
    case Uhj2ChnFloat32 => Float32
    case Uhj3Chn8 => U8
    case Uhj3Chn16 => S16
    case Uhj3ChnFloat32 => Float32
    case Uhj4Chn8 => U8
    case Uhj4Chn16 => S16
    case Uhj4ChnFloat32 => Float32
  }

  /** How many channels a layout carries. */
  function ChannelCount(l: ChannelLayout): nat {
    match l
    case Mono => 1
    case Stereo => 2
    case Quad => 4
    case Surround51 => 6
    case Surround61 => 7
    case Surround71 => 8
    case BFormat2D => 3
    case BFormat3D => 4
    case Uhj2 => 2
    case Uhj3 => 3
    case Uhj4 => 4
  }

  function LayoutName(l: ChannelLayout): string {
    match l
    case Mono => "Mono"
    case Stereo => "Stereo"
    case Quad => "Quadraphonic"
    case Surround51 => "5.1 Surround"
    case Surround61 => "6.1 Surround"
    case Surround71 => "7.1 Surround"
    case BFormat2D => "B-Format 2D"
    case BFormat3D => "B-Format 3D"
    case Uhj2 => "UHJ 2-channel"
    case Uhj3 => "UHJ 3-channel"
    case Uhj4 => "UHJ 4-channel"
  }

  function SampleName(s: SampleType): string {
    match s
    case U8 => "U8"
    case S16 => "S16"
    case Float32 => "Float32"
    case MuLaw => "muLaw"
    case ALaw => "aLaw"
    case Ima4 => "IMA4 ADPCM"
    case MsAdpcm => "MS ADPCM"
  }

  datatype Option<T> = None | Some(value: T)

  /** The listed format with a given layout and sample type, if there is one. */
  function FormatOf(l: ChannelLayout, s: SampleType): (r: Option<AlFormat>)
  {
    match l
    case Mono =>
      (match s
       case U8 => Some(Mono8)
       case S16 => Some(Mono16)
       case Float32 => Some(MonoFloat32)
       case MuLaw => Some(MonoMulaw)
       case ALaw => Some(MonoAlaw)
       case Ima4 => Some(MonoIma4)
       case MsAdpcm => Some(MonoMsadpcm))
    case Stereo =>
      (match s
       case U8 => Some(Stereo8)
       case S16 => Some(Stereo16)
       case Float32 => Some(StereoFloat32)
       case MuLaw => Some(StereoMulaw)
       case ALaw => Some(StereoAlaw)
       case Ima4 => Some(StereoIma4)
       case MsAdpcm => Some(StereoMsadpcm))
    case Quad =>
      (match s
       case U8 => Some(Quad8)
       case S16 => Some(Quad16)
       case Float32 => Some(Quad32)
       case MuLaw => Some(QuadMulaw)
       case _ => None)
    case Surround51 =>
      (match s
       case U8 => Some(Surround51x8)
       case S16 => Some(Surround51x16)
       case Float32 => Some(Surround51x32)
       case MuLaw => Some(Surround51Mulaw)
       case _ => None)
    case Surround61 =>
      (match s
       case U8 => Some(Surround61x8)
       case S16 => Some(Surround61x16)
       case Float32 => Some(Surround61x32)
       case MuLaw => Some(Surround61Mulaw)
       case _ => None)
    case Surround71 =>
      (match s
       case U8 => Some(Surround71x8)
       case S16 => Some(Surround71x16)
       case Float32 => Some(Surround71x32)
       case MuLaw => Some(Surround71Mulaw)
       case _ => None)
    case BFormat2D =>
      (match s
       case U8 => Some(BFormat2D8)
       case S16 => Some(BFormat2D16)
       case Float32 => Some(BFormat2DFloat32)
       case MuLaw => Some(BFormat2DMulaw)
       case _ => None)
    case BFormat3D =>
      (match s
       case U8 => Some(BFormat3D8)
       case S16 => Some(BFormat3D16)
       case Float32 => Some(BFormat3DFloat32)
       case MuLaw => Some(BFormat3DMulaw)
       case _ => None)
    case Uhj2 =>
      (match s
       case U8 => Some(Uhj2Chn8)
       case S16 => Some(Uhj2Chn16)
       case Float32 => Some(Uhj2ChnFloat32)
       case _ => None)
    case Uhj3 =>
      (match s
       case U8 => Some(Uhj3Chn8)
       case S16 => Some(Uhj3Chn16)
       case Float32 => Some(Uhj3ChnFloat32)
       case _ => None)
    case Uhj4 =>
      (match s
       case U8 => Some(Uhj4Chn8)
       case S16 => Some(Uhj4Chn16)
       case Float32 => Some(Uhj4ChnFloat32)
       case _ => None)
  }

  /** Every listed format is the one its own layout and sample type name. */
  lemma FormatOfParts(f: AlFormat)
    ensures FormatOf(LayoutOf(f), SampleOf(f)) == Some(f)
  {
    match f
    case Mono8 =>
    case Mono16 =>
    case MonoFloat32 =>
    case MonoMulaw =>
    case MonoAlaw =>
    case MonoIma4 =>
    case MonoMsadpcm =>
    case Stereo8 =>
    case Stereo16 =>
    case StereoFloat32 =>
    case StereoMulaw =>
    case StereoAlaw =>
    case StereoIma4 =>
    case StereoMsadpcm =>
    case Quad8 =>
    case Quad16 =>
    case Quad32 =>
    case QuadMulaw =>
    case Surround51x8 =>
    case Surround51x16 =>
    case Surround51x32 =>
    case Surround51Mulaw =>
    case Surround61x8 =>
    case Surround61x16 =>
    case Surround61x32 =>
    case Surround61Mulaw =>
    case Surround71x8 =>
    case Surround71x16 =>
    case Surround71x32 =>
    case Surround71Mulaw =>
    case BFormat2D8 =>
    case BFormat2D16 =>
    case BFormat2DFloat32 =>
    case BFormat2DMulaw =>
    case BFormat3D8 =>
    case BFormat3D16 =>
    case BFormat3DFloat32 =>
    case BFormat3DMulaw =>
    case Uhj2Chn8 =>
    case Uhj2Chn16 =>
    case Uhj2ChnFloat32 =>
    case Uhj3Chn8 =>
    case Uhj3Chn16 =>
    case Uhj3ChnFloat32 =>
    case Uhj4Chn8 =>
    case Uhj4Chn16 =>
    case Uhj4ChnFloat32 =>
  }

  /** A format is determined by its layout and sample type. */
  lemma FormatDeterminedByParts(a: AlFormat, b: AlFormat)
    requires LayoutOf(a) == LayoutOf(b) && SampleOf(a) == SampleOf(b)
    ensures a == b
  {
    FormatOfParts(a);
    FormatOfParts(b);
  }

  /** The printable name of a format: total over every enumerant, a fixed
      "layout, sample type" name for each listed format and "Unknown Format"
      for anything else. */
  function FormatName(e: AlEnum): (name: string)
    ensures name == UnknownFormat <==> e.Unlisted?
  {
    match e
    case Unlisted(_) => UnknownFormat
    case Listed(f) =>
      match f
      case Mono8 => "Mono, U8"
      case Mono16 => "Mono, S16"
      case MonoFloat32 => "Mono, Float32"
      case MonoMulaw => "Mono, muLaw"
      case MonoAlaw => "Mono, aLaw"
      case MonoIma4 => "Mono, IMA4 ADPCM"
      case MonoMsadpcm => "Mono, MS ADPCM"
      case Stereo8 => "Stereo, U8"
      case Stereo16 => "Stereo, S16"
      case StereoFloat32 => "Stereo, Float32"
      case StereoMulaw => "Stereo, muLaw"
      case StereoAlaw => "Stereo, aLaw"
      case StereoIma4 => "Stereo, IMA4 ADPCM"
      case StereoMsadpcm => "Stereo, MS ADPCM"
      case Quad8 => "Quadraphonic, U8"
      case Quad16 => "Quadraphonic, S16"
      case Quad32 => "Quadraphonic, Float32"
      case QuadMulaw => "Quadraphonic, muLaw"
      case Surround51x8 => "5.1 Surround, U8"
      case Surround51x16 => "5.1 Surround, S16"
      case Surround51x32 => "5.1 Surround, Float32"
      case Surround51Mulaw => "5.1 Surround, muLaw"
      case Surround61x8 => "6.1 Surround, U8"
      case Surround61x16 => "6.1 Surround, S16"
      case Surround61x32 => "6.1 Surround, Float32"
      case Surround61Mulaw => "6.1 Surround, muLaw"
      case Surround71x8 => "7.1 Surround, U8"
      case Surround71x16 => "7.1 Surround, S16"
      case Surround71x32 => "7.1 Surround, Float32"
      case Surround71Mulaw => "7.1 Surround, muLaw"
      case BFormat2D8 => "B-Format 2D, U8"
      case BFormat2D16 => "B-Format 2D, S16"
      case BFormat2DFloat32 => "B-Format 2D, Float32"
      case BFormat2DMulaw => "B-Format 2D, muLaw"
      case BFormat3D8 => "B-Format 3D, U8"
      case BFormat3D16 => "B-Format 3D, S16"
      case BFormat3DFloat32 => "B-Format 3D, Float32"
      case BFormat3DMulaw => "B-Format 3D, muLaw"
      case Uhj2Chn8 => "UHJ 2-channel, U8"
      case Uhj2Chn16 => "UHJ 2-channel, S16"
      case Uhj2ChnFloat32 => "UHJ 2-channel, Float32"
      case Uhj3Chn8 => "UHJ 3-channel, U8"
      case Uhj3Chn16 => "UHJ 3-channel, S16"
      case Uhj3ChnFloat32 => "UHJ 3-channel, Float32"
      case Uhj4Chn8 => "UHJ 4-channel, U8"
      case Uhj4Chn16 => "UHJ 4-channel, S16"
      case Uhj4ChnFloat32 => "UHJ 4-channel, Float32"
  }

  // The name of each listed format, one lemma per format: each string
  // comparison is costly for the solver, so each gets a proof of its own.

  lemma Mono8Name()
    ensures FormatName(Listed(Mono8)) == LayoutName(LayoutOf(Mono8)) + ", " + SampleName(SampleOf(Mono8))
  {
  }

  lemma Mono16Name()
    ensures FormatName(Listed(Mono16)) == LayoutName(LayoutOf(Mono16)) + ", " + SampleName(SampleOf(Mono16))
  {
  }

  lemma MonoFloat32Name()
    ensures FormatName(Listed(MonoFloat32)) == LayoutName(LayoutOf(MonoFloat32)) + ", " + SampleName(SampleOf(MonoFloat32))
  {
  }

  lemma MonoMulawName()
    ensures FormatName(Listed(MonoMulaw)) == LayoutName(LayoutOf(MonoMulaw)) + ", " + SampleName(SampleOf(MonoMulaw))
  {
  }

  lemma MonoAlawName()
    ensures FormatName(Listed(MonoAlaw)) == LayoutName(LayoutOf(MonoAlaw)) + ", " + SampleName(SampleOf(MonoAlaw))
  {
  }

  lemma MonoIma4Name()
    ensures FormatName(Listed(MonoIma4)) == LayoutName(LayoutOf(MonoIma4)) + ", " + SampleName(SampleOf(MonoIma4))
  {
  }

  lemma MonoMsadpcmName()
    ensures FormatName(Listed(MonoMsadpcm)) == LayoutName(LayoutOf(MonoMsadpcm)) + ", " + SampleName(SampleOf(MonoMsadpcm))
  {
  }

  lemma Stereo8Name()
    ensures FormatName(Listed(Stereo8)) == LayoutName(LayoutOf(Stereo8)) + ", " + SampleName(SampleOf(Stereo8))
  {
  }

  lemma Stereo16Name()
    ensures FormatName(Listed(Stereo16)) == LayoutName(LayoutOf(Stereo16)) + ", " + SampleName(SampleOf(Stereo16))
  {
  }

  lemma StereoFloat32Name()
    ensures FormatName(Listed(StereoFloat32)) == LayoutName(LayoutOf(StereoFloat32)) + ", " + SampleName(SampleOf(StereoFloat32))
  {
  }

  lemma StereoMulawName()
    ensures FormatName(Listed(StereoMulaw)) == LayoutName(LayoutOf(StereoMulaw)) + ", " + SampleName(SampleOf(StereoMulaw))
  {
  }

  lemma StereoAlawName()
    ensures FormatName(Listed(StereoAlaw)) == LayoutName(LayoutOf(StereoAlaw)) + ", " + SampleName(SampleOf(StereoAlaw))
  {
  }

  lemma StereoIma4Name()
    ensures FormatName(Listed(StereoIma4)) == LayoutName(LayoutOf(StereoIma4)) + ", " + SampleName(SampleOf(StereoIma4))
  {
  }

  lemma StereoMsadpcmName()
    ensures FormatName(Listed(StereoMsadpcm)) == LayoutName(LayoutOf(StereoMsadpcm)) + ", " + SampleName(SampleOf(StereoMsadpcm))
  {
  }

  lemma Quad8Name()
    ensures FormatName(Listed(Quad8)) == LayoutName(LayoutOf(Quad8)) + ", " + SampleName(SampleOf(Quad8))
  {
  }

  lemma Quad16Name()
    ensures FormatName(Listed(Quad16)) == LayoutName(LayoutOf(Quad16)) + ", " + SampleName(SampleOf(Quad16))
  {
  }

  lemma Quad32Name()
    ensures FormatName(Listed(Quad32)) == LayoutName(LayoutOf(Quad32)) + ", " + SampleName(SampleOf(Quad32))
  {
  }

  lemma QuadMulawName()
    ensures FormatName(Listed(QuadMulaw)) == LayoutName(LayoutOf(QuadMulaw)) + ", " + SampleName(SampleOf(QuadMulaw))
  {
  }

  lemma Surround51x8Name()
    ensures FormatName(Listed(Surround51x8)) == LayoutName(LayoutOf(Surround51x8)) + ", " + SampleName(SampleOf(Surround51x8))
  {
  }

  lemma Surround51x16Name()
    ensures FormatName(Listed(Surround51x16)) == LayoutName(LayoutOf(Surround51x16)) + ", " + SampleName(SampleOf(Surround51x16))
  {
  }

  lemma Surround51x32Name()
    ensures FormatName(Listed(Surround51x32)) == LayoutName(LayoutOf(Surround51x32)) + ", " + SampleName(SampleOf(Surround51x32))
  {
  }

  lemma Surround51MulawName()
    ensures FormatName(Listed(Surround51Mulaw)) == LayoutName(LayoutOf(Surround51Mulaw)) + ", " + SampleName(SampleOf(Surround51Mulaw))
  {
  }

  lemma Surround61x8Name()
    ensures FormatName(Listed(Surround61x8)) == LayoutName(LayoutOf(Surround61x8)) + ", " + SampleName(SampleOf(Surround61x8))
  {
  }

  lemma Surround61x16Name()
    ensures FormatName(Listed(Surround61x16)) == LayoutName(LayoutOf(Surround61x16)) + ", " + SampleName(SampleOf(Surround61x16))
  {
  }

  lemma Surround61x32Name()
    ensures FormatName(Listed(Surround61x32)) == LayoutName(LayoutOf(Surround61x32)) + ", " + SampleName(SampleOf(Surround61x32))
  {
  }

  lemma Surround61MulawName()
    ensures FormatName(Listed(Surround61Mulaw)) == LayoutName(LayoutOf(Surround61Mulaw)) + ", " + SampleName(SampleOf(Surround61Mulaw))
  {
  }

  lemma Surround71x8Name()
    ensures FormatName(Listed(Surround71x8)) == LayoutName(LayoutOf(Surround71x8)) + ", " + SampleName(SampleOf(Surround71x8))
  {
  }

  lemma Surround71x16Name()
    ensures FormatName(Listed(Surround71x16)) == LayoutName(LayoutOf(Surround71x16)) + ", " + SampleName(SampleOf(Surround71x16))
  {
  }

  lemma Surround71x32Name()
    ensures FormatName(Listed(Surround71x32)) == LayoutName(LayoutOf(Surround71x32)) + ", " + SampleName(SampleOf(Surround71x32))
  {
  }

  lemma Surround71MulawName()
    ensures FormatName(Listed(Surround71Mulaw)) == LayoutName(LayoutOf(Surround71Mulaw)) + ", " + SampleName(SampleOf(Surround71Mulaw))
  {
  }

  lemma BFormat2D8Name()
    ensures FormatName(Listed(BFormat2D8)) == LayoutName(LayoutOf(BFormat2D8)) + ", " + SampleName(SampleOf(BFormat2D8))
  {
  }

  lemma BFormat2D16Name()
    ensures FormatName(Listed(BFormat2D16)) == LayoutName(LayoutOf(BFormat2D16)) + ", " + SampleName(SampleOf(BFormat2D16))
  {
  }

  lemma BFormat2DFloat32Name()
    ensures FormatName(Listed(BFormat2DFloat32)) == LayoutName(LayoutOf(BFormat2DFloat32)) + ", " + SampleName(SampleOf(BFormat2DFloat32))
  {
  }

  lemma BFormat2DMulawName()
    ensures FormatName(Listed(BFormat2DMulaw)) == LayoutName(LayoutOf(BFormat2DMulaw)) + ", " + SampleName(SampleOf(BFormat2DMulaw))
  {
  }

  lemma BFormat3D8Name()
    ensures FormatName(Listed(BFormat3D8)) == LayoutName(LayoutOf(BFormat3D8)) + ", " + SampleName(SampleOf(BFormat3D8))
  {
  }

  lemma BFormat3D16Name()
    ensures FormatName(Listed(BFormat3D16)) == LayoutName(LayoutOf(BFormat3D16)) + ", " + SampleName(SampleOf(BFormat3D16))
  {
  }

  lemma BFormat3DFloat32Name()
    ensures FormatName(Listed(BFormat3DFloat32)) == LayoutName(LayoutOf(BFormat3DFloat32)) + ", " + SampleName(SampleOf(BFormat3DFloat32))
  {
  }

  lemma BFormat3DMulawName()
    ensures FormatName(Listed(BFormat3DMulaw)) == LayoutName(LayoutOf(BFormat3DMulaw)) + ", " + SampleName(SampleOf(BFormat3DMulaw))
  {
  }

  lemma Uhj2Chn8Name()
    ensures FormatName(Listed(Uhj2Chn8)) == LayoutName(LayoutOf(Uhj2Chn8)) + ", " + SampleName(SampleOf(Uhj2Chn8))
  {
  }

  lemma Uhj2Chn16Name()
    ensures FormatName(Listed(Uhj2Chn16)) == LayoutName(LayoutOf(Uhj2Chn16)) + ", " + SampleName(SampleOf(Uhj2Chn16))
  {
  }

  lemma Uhj2ChnFloat32Name()
    ensures FormatName(Listed(Uhj2ChnFloat32)) == LayoutName(LayoutOf(Uhj2ChnFloat32)) + ", " + SampleName(SampleOf(Uhj2ChnFloat32))
  {
  }

  lemma Uhj3Chn8Name()
    ensures FormatName(Listed(Uhj3Chn8)) == LayoutName(LayoutOf(Uhj3Chn8)) + ", " + SampleName(SampleOf(Uhj3Chn8))
  {
  }

  lemma Uhj3Chn16Name()
    ensures FormatName(Listed(Uhj3Chn16)) == LayoutName(LayoutOf(Uhj3Chn16)) + ", " + SampleName(SampleOf(Uhj3Chn16))
  {
  }

  lemma Uhj3ChnFloat32Name()
    ensures FormatName(Listed(Uhj3ChnFloat32)) == LayoutName(LayoutOf(Uhj3ChnFloat32)) + ", " + SampleName(SampleOf(Uhj3ChnFloat32))
  {
  }

  lemma Uhj4Chn8Name()
    ensures FormatName(Listed(Uhj4Chn8)) == LayoutName(LayoutOf(Uhj4Chn8)) + ", " + SampleName(SampleOf(Uhj4Chn8))
  {
  }

  lemma Uhj4Chn16Name()
    ensures FormatName(Listed(Uhj4Chn16)) == LayoutName(LayoutOf(Uhj4Chn16)) + ", " + SampleName(SampleOf(Uhj4Chn16))
  {
  }

  lemma Uhj4ChnFloat32Name()
    ensures FormatName(Listed(Uhj4ChnFloat32)) == LayoutName(LayoutOf(Uhj4ChnFloat32)) + ", " + SampleName(SampleOf(Uhj4ChnFloat32))
  {
  }

  /** Every listed name reads "layout, sample type": the logged name tells
      the channel layout and the sample encoding of the format. */
  lemma FormatNameParts(f: AlFormat)
    ensures FormatName(Listed(f)) == LayoutName(LayoutOf(f)) + ", " + SampleName(SampleOf(f))
  {
    match f
    case Mono8 => Mono8Name();
    case Mono16 => Mono16Name();
    case MonoFloat32 => MonoFloat32Name();
    case MonoMulaw => MonoMulawName();
    case MonoAlaw => MonoAlawName();
    case MonoIma4 => MonoIma4Name();
    case MonoMsadpcm => MonoMsadpcmName();
    case Stereo8 => Stereo8Name();
    case Stereo16 => Stereo16Name();
    case StereoFloat32 => StereoFloat32Name();
    case StereoMulaw => StereoMulawName();
    case StereoAlaw => StereoAlawName();
    case StereoIma4 => StereoIma4Name();
    case StereoMsadpcm => StereoMsadpcmName();
    case Quad8 => Quad8Name();
    case Quad16 => Quad16Name();
    case Quad32 => Quad32Name();
    case QuadMulaw => QuadMulawName();
    case Surround51x8 => Surround51x8Name();
    case Surround51x16 => Surround51x16Name();
    case Surround51x32 => Surround51x32Name();
    case Surround51Mulaw => Surround51MulawName();
    case Surround61x8 => Surround61x8Name();
    case Surround61x16 => Surround61x16Name();
    case Surround61x32 => Surround61x32Name();
    case Surround61Mulaw => Surround61MulawName();
    case Surround71x8 => Surround71x8Name();
    case Surround71x16 => Surround71x16Name();
    case Surround71x32 => Surround71x32Name();
    case Surround71Mulaw => Surround71MulawName();
    case BFormat2D8 => BFormat2D8Name();
    case BFormat2D16 => BFormat2D16Name();
    case BFormat2DFloat32 => BFormat2DFloat32Name();
    case BFormat2DMulaw => BFormat2DMulawName();
    case BFormat3D8 => BFormat3D8Name();
    case BFormat3D16 => BFormat3D16Name();
    case BFormat3DFloat32 => BFormat3DFloat32Name();
    case BFormat3DMulaw => BFormat3DMulawName();
    case Uhj2Chn8 => Uhj2Chn8Name();
    case Uhj2Chn16 => Uhj2Chn16Name();
    case Uhj2ChnFloat32 => Uhj2ChnFloat32Name();
    case Uhj3Chn8 => Uhj3Chn8Name();
    case Uhj3Chn16 => Uhj3Chn16Name();
    case Uhj3ChnFloat32 => Uhj3ChnFloat32Name();
    case Uhj4Chn8 => Uhj4Chn8Name();
    case Uhj4Chn16 => Uhj4Chn16Name();
    case Uhj4ChnFloat32 => Uhj4ChnFloat32Name();
  }

  /** The index of the first comma in `s`, or its length when there is none. */
  function CommaIndex(s: string): (i: nat)
    ensures i <= |s|
  {
    if s == [] || s[0] == ',' then 0 else 1 + CommaIndex(s[1..])
  }

  lemma {:induction false} CommaIndexOfJoin(x: string, y: string)
    requires ',' !in x
    ensures CommaIndex(x + ", " + y) == |x|
  {
    if x != [] {
      assert (x + ", " + y)[1..] == x[1..] + ", " + y;
      assert x[0] in x;
      CommaIndexOfJoin(x[1..], y);
    }
  }

  /** No layout name contains a comma. */
  lemma LayoutNameNoComma(l: ChannelLayout)
    ensures ',' !in LayoutName(l)
  {
  }

  /** Different layouts have different names. */
  lemma LayoutNameInjective(l1: ChannelLayout, l2: ChannelLayout)
    requires LayoutName(l1) == LayoutName(l2)
    ensures l1 == l2
  {
  }

  /** Different sample types have different names. */
  lemma SampleNameInjective(s1: SampleType, s2: SampleType)
    requires SampleName(s1) == SampleName(s2)
    ensures s1 == s2
  {
  }

  /** A comma-free head joined by ", " to a tail is split back uniquely. */
  lemma JoinInjective(x1: string, y1: string, x2: string, y2: string)
    requires ',' !in x1 && ',' !in x2
    requires x1 + ", " + y1 == x2 + ", " + y2
    ensures x1 == x2 && y1 == y2
  {
    var name := x1 + ", " + y1;
    CommaIndexOfJoin(x1, y1);
    CommaIndexOfJoin(x2, y2);
    assert name[..|x1|] == x1 && name[|x1| + 2..] == y1;
    assert name[..|x2|] == x2 && name[|x2| + 2..] == y2;
  }

  /** Different listed formats have different names: the logged name
      identifies the format. */
  lemma FormatNameInjective(a: AlFormat, b: AlFormat)
    requires FormatName(Listed(a)) == FormatName(Listed(b))
    ensures a == b
  {
    FormatNameParts(a);
    FormatNameParts(b);
    LayoutNameNoComma(LayoutOf(a));
    LayoutNameNoComma(LayoutOf(b));
    JoinInjective(LayoutName(LayoutOf(a)), SampleName(SampleOf(a)), LayoutName(LayoutOf(b)), SampleName(SampleOf(b)));
    LayoutNameInjective(LayoutOf(a), LayoutOf(b));
    SampleNameInjective(SampleOf(a), SampleOf(b));
    FormatDeterminedByParts(a, b);
  }
}

/**
 Parameter checks of the voice-activity detector wrapper: the supported
 sample rates, the samples per 30 ms frame, the chunk-length guard and the
 conversion of 16-bit samples to the bytes the detector reads. The detector
 itself (constructing it with a mode, and classifying a frame) is an oracle.
 */
module VoiceActivity {
  import opened Wrappers

  /** Default sample rate (Hz). */
  const SR: nat := 16000
  /** Frame duration (ms). */
  const FRAME_MS: nat := 30
  /** Samples per frame at the default rate. */
  const FRAME_SIZE: nat := SR * FRAME_MS / 1000

  newtype int16 = x: int | -0x8000 <= x < 0x8000
  newtype byte = x: int | 0 <= x < 0x100

  datatype Vad = Vad(mode: int, sampleRate: nat, frameSize: nat)

  datatype VadError =
    | UnsupportedSampleRate(rate: int)
    | ModeRejected(mode: int)
    | WrongChunkLength(expected: nat, got: nat)

  /**
   Constructs the wrapper. Only 8 kHz and 16 kHz are accepted; the detector
   may still reject the mode (`acceptsMode`). A frame is exactly 30 ms of
   samples.
   */
  function NewVad(mode: int, sampleRate: int, acceptsMode: int -> bool): (r: Result<Vad, VadError>)
    ensures r.Ok? <==> (sampleRate == 8000 || sampleRate == 16000) && acceptsMode(mode)
    ensures sampleRate != 8000 && sampleRate != 16000 ==> r == Err(UnsupportedSampleRate(sampleRate))
    ensures r.Ok? ==> r.value.sampleRate == sampleRate && r.value.mode == mode
    ensures r.Ok? ==> r.value.frameSize * 1000 == sampleRate * FRAME_MS
  {
    if sampleRate != 8000 && sampleRate != 16000 then Err(UnsupportedSampleRate(sampleRate))
    else if !acceptsMode(mode) then Err(ModeRejected(mode))
    else Ok(Vad(mode, sampleRate, sampleRate * FRAME_MS / 1000))
  }

  /** 480 samples per frame at 16 kHz (the module constant) and 240 at 8 kHz. */
  lemma FrameSizes(mode: int, acceptsMode: int -> bool)
    requires acceptsMode(mode)
    ensures NewVad(mode, SR, acceptsMode).value.frameSize == FRAME_SIZE == 480
    ensures NewVad(mode, 8000, acceptsMode).value.frameSize == 240
  {
  }

  /** One sample as two bytes, little-endian two's complement. */
  function SampleBytes(x: int16): seq<byte> {
    var u := (x as int) % 0x10000;
    [(u % 0x100) as byte, (u / 0x100) as byte]
  }

  function SampleOf(lo: byte, hi: byte): int16 {
    var u := lo as int + 0x100 * hi as int;
    (if u >= 0x8000 then u - 0x10000 else u) as int16
  }

  /** The raw bytes of a chunk of samples, as the detector receives them. */
  function ToBytes(chunk: seq<int16>): (bs: seq<byte>)
    ensures |bs| == 2 * |chunk|
  {
    if chunk == [] then [] else SampleBytes(chunk[0]) + ToBytes(chunk[1..])
  }

  function FromBytes(bs: seq<byte>): seq<int16>
    requires |bs| % 2 == 0
  {
    if bs == [] then [] else [SampleOf(bs[0], bs[1])] + FromBytes(bs[2..])
  }

  /** The byte conversion loses nothing: the samples can be read back. */
  lemma {:induction false} BytesRoundTrip(chunk: seq<int16>)
    ensures FromBytes(ToBytes(chunk)) == chunk
  {
    if chunk != [] {
      var bs := ToBytes(chunk);
      assert bs[2..] == ToBytes(chunk[1..]);
      BytesRoundTrip(chunk[1..]);
      assert SampleOf(bs[0], bs[1]) == chunk[0];
    }
  }

  /**
   Whether the chunk holds speech. A chunk of the wrong length is an error;
   a detector that raises counts as no speech.
   */
  function IsSpeech(v: Vad, chunk: seq<int16>, detect: (seq<byte>, nat) -> Option<bool>): (r: Result<bool, VadError>)
    ensures r.Err? <==> |chunk| != v.frameSize
    ensures r.Err? ==> r.error == WrongChunkLength(v.frameSize, |chunk|)
    ensures r.Ok? ==> r.value == (detect(ToBytes(chunk), v.sampleRate) == Some(true))
    ensures r.Ok? ==> |ToBytes(chunk)| == 2 * v.frameSize
  {
    if |chunk| != v.frameSize then Err(WrongChunkLength(v.frameSize, |chunk|))
    else match detect(ToBytes(chunk), v.sampleRate)
      case None => Ok(false)
      case Some(b) => Ok(b)
  }
}

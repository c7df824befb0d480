// The general part of an encoder: the scaled output size, the preferred
// pixel format, the media output it is attached to and the timebase taken
// from it. The encoder type comes from the concrete encoder and never
// changes.
module LiteEncoder {
  import opened Common
  import opened VideoFrame

  datatype EncoderType = EncoderAudio | EncoderVideo

  /** What the encoder reads from a video output: its size and frame rate
      as the fraction `fpsNum / fpsDen`. */
  datatype VideoOutput = VideoOutput(width: uint32, height: uint32, fpsNum: uint32, fpsDen: uint32)

  /** What the encoder reads from an audio output. */
  datatype AudioOutput = AudioOutput(sampleRate: uint32)

  /** The encoder's private state. The media outputs are held weakly; a
      reference that no longer locks reads as `None`. */
  datatype EncoderPrivate = EncoderPrivate(
    mixerIdx: nat,
    samplerate: uint32,
    framesize: nat,
    scaledWidth: uint32,
    scaledHeight: uint32,
    preferredFormat: VideoFormat,
    active: bool,
    timebaseNum: uint32,
    timebaseDen: uint32,
    vMedia: Option<VideoOutput>,
    aMedia: Option<AudioOutput>)

  class Encoder {
    const encoderType: EncoderType
    var d: EncoderPrivate

    /** What only the matching kind of encoder can set stays at its initial
        value on the other kind, and what nothing in the core ever sets (the
        active flag, the stored sample rate and frame size) stays at zero. */
    predicate Valid()
      reads this
    {
      && !d.active && d.samplerate == 0 && d.framesize == 0
      && (encoderType != EncoderVideo ==>
            d.scaledWidth == 0 && d.scaledHeight == 0 && d.preferredFormat == NoFormat && d.vMedia.None?)
      && (encoderType != EncoderAudio ==> d.aMedia.None?)
    }

    /** Every field of the private state is value-initialised but the mixer
        index. */
    constructor (encoderType: EncoderType, mixerIdx: nat)
      ensures this.encoderType == encoderType && Valid()
      ensures d == EncoderPrivate(mixerIdx, 0, 0, 0, 0, NoFormat, false, 0, 0, None, None)
    {
      this.encoderType := encoderType;
      d := EncoderPrivate(mixerIdx, 0, 0, 0, 0, NoFormat, false, 0, 0, None, None);
    }

    /** `lite_obs_encoder_set_scaled_size`: only a video encoder that is not
        active takes the new size. */
    method SetScaledSize(width: uint32, height: uint32)
      requires Valid()
      modifies this
      ensures Valid()
      ensures encoderType != EncoderVideo || old(d).active ==> d == old(d)
      ensures encoderType == EncoderVideo && !old(d).active ==>
        d == old(d).(scaledWidth := width, scaledHeight := height)
      ensures encoderType == EncoderVideo && !old(d).active ==>
        (ScalingEnabled() <==> width != 0 || height != 0)
      ensures encoderType == EncoderVideo && !old(d).active && d.vMedia.Some? ==>
        (width != 0 ==> Width() == width) && (height != 0 ==> Height() == height)
    {
      if encoderType != EncoderVideo {
        return;
      }
      if d.active {
        return;
      }
      d := d.(scaledWidth := width, scaledHeight := height);
    }

    /** `lite_obs_encoder_scaling_enabled`. */
    predicate ScalingEnabled()
      reads this
    {
      d.scaledWidth != 0 || d.scaledHeight != 0
    }

    /** `lite_obs_encoder_get_width`: 0 unless this is a video encoder
        attached to a live output; then the scaled width, or the output's
        width when no scaled width is set. */
    function Width(): (r: uint32)
      reads this
    {
      if encoderType != EncoderVideo then 0
      else if d.vMedia.None? then 0
      else if d.scaledWidth != 0 then d.scaledWidth else d.vMedia.value.width
    }

    /** `lite_obs_encoder_get_height`, the same rule for the height. */
    function Height(): (r: uint32)
      reads this
    {
      if encoderType != EncoderVideo then 0
      else if d.vMedia.None? then 0
      else if d.scaledHeight != 0 then d.scaledHeight else d.vMedia.value.height
    }

    /** `lite_obs_encoder_get_sample_rate`: 0 unless this is an audio
        encoder attached to a live output; then the stored rate, or the
        output's rate when none is stored. */
    function SampleRate(): (r: uint32)
      reads this
    {
      if encoderType != EncoderAudio then 0
      else if d.aMedia.None? then 0
      else if d.samplerate != 0 then d.samplerate else d.aMedia.value.sampleRate
    }

    /** `lite_obs_encoder_get_frame_size`: the frame size of an audio
        encoder, 0 for a video encoder. */
    function FrameSize(): (r: nat)
      reads this
    {
      if encoderType != EncoderAudio then 0 else d.framesize
    }

    /** `lite_obs_encoder_set_preferred_video_format`: ignored by an audio
        encoder. */
    method SetPreferredVideoFormat(format: VideoFormat)
      requires Valid()
      modifies this
      ensures Valid()
      ensures d == if encoderType == EncoderVideo then old(d).(preferredFormat := format) else old(d)
      ensures PreferredVideoFormat() == if encoderType == EncoderVideo then format else NoFormat
    {
      if encoderType != EncoderVideo {
        return;
      }
      d := d.(preferredFormat := format);
    }

    /** `lite_obs_encoder_get_preferred_video_format`. */
    function PreferredVideoFormat(): (r: VideoFormat)
      reads this
    {
      if encoderType != EncoderVideo then NoFormat else d.preferredFormat
    }

    /** `lite_obs_encoder_set_video`: a video encoder attaches to a non-null
        output and takes the inverse of its frame rate as its timebase. */
    method SetVideo(video: Option<VideoOutput>)
      requires Valid()
      modifies this
      ensures Valid()
      ensures encoderType != EncoderVideo || video.None? ==> d == old(d)
      ensures encoderType == EncoderVideo && video.Some? ==>
        d == old(d).(vMedia := video, timebaseNum := video.value.fpsDen, timebaseDen := video.value.fpsNum)
      ensures encoderType == EncoderVideo && video.Some? ==>
        d.timebaseNum * video.value.fpsNum == video.value.fpsDen * d.timebaseDen && Video() == video
    {
      if encoderType != EncoderVideo {
        return;
      }
      if video.None? {
        return;
      }
      var voi := video.value;
      d := d.(vMedia := video, timebaseNum := voi.fpsDen, timebaseDen := voi.fpsNum);
    }

    /** `lite_obs_encoder_set_audio`: an audio encoder attaches to a
        non-null output and takes one over its sample rate as its
        timebase. */
    method SetAudio(audio: Option<AudioOutput>)
      requires Valid()
      modifies this
      ensures Valid()
      ensures encoderType != EncoderAudio || audio.None? ==> d == old(d)
      ensures encoderType == EncoderAudio && audio.Some? ==>
        d == old(d).(aMedia := audio, timebaseNum := 1, timebaseDen := audio.value.sampleRate)
      ensures encoderType == EncoderAudio && audio.Some? ==>
        d.timebaseNum == 1 && d.timebaseDen == SampleRate() && Audio() == audio
    {
      if encoderType != EncoderAudio {
        return;
      }
      if audio.None? {
        return;
      }
      d := d.(aMedia := audio, timebaseNum := 1, timebaseDen := audio.value.sampleRate);
    }

    /** `lite_obs_encoder_video`: the attached video output, null for an
        audio encoder. */
    function Video(): (r: Option<VideoOutput>)
      reads this
    {
      if encoderType != EncoderVideo then None else d.vMedia
    }

    /** `lite_obs_encoder_audio`: the attached audio output, null for a
        video encoder. */
    function Audio(): (r: Option<AudioOutput>)
      reads this
    {
      if encoderType != EncoderAudio then None else d.aMedia
    }

    /** `lite_obs_encoder_active`. */
    function Active(): (r: bool)
      reads this
    {
      d.active
    }
  }

  /** A scaled size exists only on video encoders. */
  lemma ScalingOnlyForVideo(e: Encoder)
    requires e.Valid() && e.ScalingEnabled()
    ensures e.encoderType == EncoderVideo
  {
  }

  /** Without a scaled size the encoder reports the output's own size. */
  lemma UnscaledSize(e: Encoder)
    requires e.encoderType == EncoderVideo && e.d.vMedia.Some? && !e.ScalingEnabled()
    ensures e.Width() == e.d.vMedia.value.width && e.Height() == e.d.vMedia.value.height
  {
  }

  /** Nothing in the core sets the active flag, so an encoder is never
      active and a video encoder always takes a new scaled size. */
  lemma NeverActive(e: Encoder)
    requires e.Valid()
    ensures !e.Active()
  {
  }

  /** An encoder of the other kind reports nothing: no size, format or
      video output on an audio encoder, no rate, frame size or audio output
      on a video encoder. */
  lemma OtherKindReportsNothing(e: Encoder)
    ensures e.encoderType != EncoderVideo ==>
      e.Width() == 0 && e.Height() == 0 && e.PreferredVideoFormat() == NoFormat && e.Video().None?
    ensures e.encoderType != EncoderAudio ==> e.SampleRate() == 0 && e.FrameSize() == 0 && e.Audio().None?
  {
  }

  /** As the stored rate and frame size are never set, an audio encoder
      reports its output's sample rate (0 without one) and a frame size of
      0. */
  lemma AudioReportsOutput(e: Encoder)
    requires e.Valid()
    ensures e.FrameSize() == 0
    ensures e.SampleRate() == if e.Audio().Some? then e.Audio().value.sampleRate else 0
  {
  }
}

// A source: the defaults its constructor sets, the audio flag, and the
// table of per-mix, per-channel windows into one zeroed audio output
// buffer.
module LiteSource {
  import opened Common

  const AUDIO_OUTPUT_FRAMES: nat := 1024
  const MAX_AUDIO_CHANNELS: nat := 8
  const MAX_AUDIO_MIXES: nat := 6

  /** The source output flags. */
  const OBS_SOURCE_VIDEO: nat := 1
  const OBS_SOURCE_AUDIO: nat := 2
  const OBS_SOURCE_ASYNC: nat := 4
  const OBS_SOURCE_CUSTOM_DRAW: nat := 8

  /** The samples of the audio output buffer: a window of
      `AUDIO_OUTPUT_FRAMES` samples for every channel of every mix. */
  const AUDIO_BUFFER_SAMPLES: nat := AUDIO_OUTPUT_FRAMES * MAX_AUDIO_CHANNELS * MAX_AUDIO_MIXES

  datatype SourceType = Input | Filter | Transition | Scene

  /** The source implementation object: its id, type and output flags. */
  datatype SourceImpl = SourceImpl(id: string, sourceType: SourceType, outputFlags: uint32)

  /** Where the window of channel `ch` of mix `mix` starts: the mixes follow
      one another, and inside a mix the channels do. */
  function WindowStart(mix: nat, ch: nat): nat
  {
    (mix * MAX_AUDIO_CHANNELS + ch) * AUDIO_OUTPUT_FRAMES
  }

  /** Every window lies inside the buffer. */
  lemma WindowInside(mix: nat, ch: nat)
    requires mix < MAX_AUDIO_MIXES && ch < MAX_AUDIO_CHANNELS
    ensures WindowStart(mix, ch) + AUDIO_OUTPUT_FRAMES <= AUDIO_BUFFER_SAMPLES
  {
  }

  /** Two different windows do not overlap. */
  lemma WindowsDisjoint(m1: nat, c1: nat, m2: nat, c2: nat)
    requires m1 < MAX_AUDIO_MIXES && c1 < MAX_AUDIO_CHANNELS
    requires m2 < MAX_AUDIO_MIXES && c2 < MAX_AUDIO_CHANNELS
    requires m1 != m2 || c1 != c2
    ensures WindowStart(m1, c1) + AUDIO_OUTPUT_FRAMES <= WindowStart(m2, c2)
         || WindowStart(m2, c2) + AUDIO_OUTPUT_FRAMES <= WindowStart(m1, c1)
  {
    var i1, i2 := m1 * MAX_AUDIO_CHANNELS + c1, m2 * MAX_AUDIO_CHANNELS + c2;
    assert i1 != i2 by {
      if m1 < m2 {
        assert i1 < (m1 + 1) * MAX_AUDIO_CHANNELS <= i2;
      } else if m2 < m1 {
        assert i2 < (m2 + 1) * MAX_AUDIO_CHANNELS <= i1;
      }
    }
  }

  /** The windows cover the whole buffer: sample `p` lies in the window of
      mix `p / (FRAMES * CHANNELS)`, channel `(p / FRAMES) % CHANNELS`. */
  lemma WindowsTile(p: nat)
    requires p < AUDIO_BUFFER_SAMPLES
    ensures var mix, ch := p / (AUDIO_OUTPUT_FRAMES * MAX_AUDIO_CHANNELS), p / AUDIO_OUTPUT_FRAMES % MAX_AUDIO_CHANNELS;
      mix < MAX_AUDIO_MIXES && ch < MAX_AUDIO_CHANNELS
      && WindowStart(mix, ch) <= p < WindowStart(mix, ch) + AUDIO_OUTPUT_FRAMES
  {
    var f := p / AUDIO_OUTPUT_FRAMES;
    assert f / MAX_AUDIO_CHANNELS == p / (AUDIO_OUTPUT_FRAMES * MAX_AUDIO_CHANNELS);
    assert f / MAX_AUDIO_CHANNELS * MAX_AUDIO_CHANNELS + f % MAX_AUDIO_CHANNELS == f;
  }

  /** `output_flags & OBS_SOURCE_AUDIO` is the second lowest bit. */
  lemma AudioFlagBit(flags: nat)
    ensures BitAnd(flags, OBS_SOURCE_AUDIO) != 0 <==> flags / 2 % 2 == 1
  {
    BitAndHalve(flags, 1);
    assert BitAnd(flags / 2, 1) == flags / 2 % 2;
  }

  class Source {
    var impl: SourceImpl
    var userVolume: real
    var volume: real
    var syncOffset: int
    var balance: real
    var audioActive: bool
    var audioMixers: uint32
    var enabled: bool
    /** `audio_output_buf`: the start of each mix's and channel's window
        in `audioBuffer`, absent until the buffer is allocated. */
    const audioOutputBuf: array2<Option<nat>>
    var audioBuffer: seq<real>

    /** `is_audio_source`: the OBS_SOURCE_AUDIO bit of the output flags. */
    predicate IsAudioSource()
      reads this
    {
      BitAnd(impl.outputFlags, OBS_SOURCE_AUDIO) != 0
    }

    /** The constructor. The implementation object is value-initialised, so
        its id is empty and its flags are zero; the `id` argument is not
        stored. */
    constructor (id: string)
      ensures impl == SourceImpl("", Input, 0) && !IsAudioSource()
      ensures userVolume == 1.0 && volume == 1.0 && syncOffset == 0 && balance == 0.5
      ensures audioActive && audioMixers == 0xFF && enabled
      ensures fresh(audioOutputBuf)
      ensures audioOutputBuf.Length0 == MAX_AUDIO_MIXES && audioOutputBuf.Length1 == MAX_AUDIO_CHANNELS
      ensures forall mix, ch :: 0 <= mix < MAX_AUDIO_MIXES && 0 <= ch < MAX_AUDIO_CHANNELS ==>
        audioOutputBuf[mix, ch] == None
      ensures audioBuffer == []
    {
      impl := SourceImpl("", Input, 0);
      userVolume := 1.0;
      volume := 1.0;
      syncOffset := 0;
      balance := 0.5;
      audioActive := true;
      audioOutputBuf := new Option<nat>[MAX_AUDIO_MIXES, MAX_AUDIO_CHANNELS]((_, _) => None);
      audioBuffer := [];
      new;
      if IsAudioSource() {
        // Where the buffer would be allocated: with zero flags this
        // branch is never taken.
        assert false;
      }
      audioMixers := 0xFF;
      enabled := true;
    }

    /** `allocate_audio_output_buffer`: one zeroed buffer, and every entry
        of the table set to the start of its window. */
    method AllocateAudioOutputBuffer()
      requires audioOutputBuf.Length0 == MAX_AUDIO_MIXES && audioOutputBuf.Length1 == MAX_AUDIO_CHANNELS
      modifies this, audioOutputBuf
      ensures audioBuffer == seq(AUDIO_BUFFER_SAMPLES, _ => 0.0)
      ensures forall mix, ch :: 0 <= mix < MAX_AUDIO_MIXES && 0 <= ch < MAX_AUDIO_CHANNELS ==>
        audioOutputBuf[mix, ch] == Some(WindowStart(mix, ch))
      ensures impl == old(impl) && userVolume == old(userVolume) && volume == old(volume)
      ensures syncOffset == old(syncOffset) && balance == old(balance) && audioActive == old(audioActive)
      ensures audioMixers == old(audioMixers) && enabled == old(enabled)
    {
      var size := AUDIO_OUTPUT_FRAMES * MAX_AUDIO_CHANNELS * MAX_AUDIO_MIXES;
      audioBuffer := seq(size, _ => 0.0);
      for mix := 0 to MAX_AUDIO_MIXES
        modifies audioOutputBuf
        invariant forall m, ch :: 0 <= m < mix && 0 <= ch < MAX_AUDIO_CHANNELS ==>
          audioOutputBuf[m, ch] == Some(WindowStart(m, ch))
      {
        var mixPos := mix * AUDIO_OUTPUT_FRAMES * MAX_AUDIO_CHANNELS;
        for i := 0 to MAX_AUDIO_CHANNELS
          modifies audioOutputBuf
          invariant forall m, ch :: 0 <= m < mix && 0 <= ch < MAX_AUDIO_CHANNELS ==>
            audioOutputBuf[m, ch] == Some(WindowStart(m, ch))
          invariant forall ch :: 0 <= ch < i ==> audioOutputBuf[mix, ch] == Some(WindowStart(mix, ch))
        {
          audioOutputBuf[mix, i] := Some(mixPos + AUDIO_OUTPUT_FRAMES * i);
        }
      }
    }
  }

  /** After allocation every window reads as silence. */
  lemma WindowsZeroed(s: Source, mix: nat, ch: nat, j: nat)
    requires s.audioBuffer == seq(AUDIO_BUFFER_SAMPLES, _ => 0.0)
    requires mix < MAX_AUDIO_MIXES && ch < MAX_AUDIO_CHANNELS && j < AUDIO_OUTPUT_FRAMES
    ensures WindowStart(mix, ch) + j < |s.audioBuffer| && s.audioBuffer[WindowStart(mix, ch) + j] == 0.0
  {
    WindowInside(mix, ch);
  }
}

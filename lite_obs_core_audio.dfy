// The core audio state: the audio output it owns, the queue of the
// timestamp ranges the audio callback has been asked to render, and the
// buffering counters.
module CoreAudio {
  import opened Common

  /** A `(start, end)` range of audio timestamps. */
  datatype TsInfo = TsInfo(start: nat, end: nat)

  /** The caller's audio settings (`obs_audio_info`). */
  datatype ObsAudioInfo = ObsAudioInfo(samplesPerSec: nat, speakers: nat)

  datatype AudioFormat = FloatPlanar

  /** What an audio output is opened with; the input callback is always
      the core's own and is left out. */
  datatype AudioOutputInfo = AudioOutputInfo(name: string, samplesPerSec: nat, format: AudioFormat, speakers: nat)

  /** An audio output, known by the settings it was opened with. */
  datatype AudioOutput = AudioOutput(info: AudioOutputInfo)

  /** The calls the core makes on audio outputs, whose effects lie outside
      this model. */
  datatype AudioCall = Open(info: AudioOutputInfo) | Close(output: AudioOutput)

  class CoreAudioState {
    var audio: Option<AudioOutput>
    var bufferedTs: nat
    var bufferedTimestamps: seq<TsInfo>
    var bufferingWaitTicks: nat
    var totalBufferingTicks: int
    var calls: seq<AudioCall>

    constructor ()
      ensures audio == None && bufferedTimestamps == [] && calls == []
      ensures bufferedTs == 0 && bufferingWaitTicks == 0 && totalBufferingTicks == 0
      ensures CoreAudio().None?
    {
      audio := None;
      bufferedTs := 0;
      bufferedTimestamps := [];
      bufferingWaitTicks := 0;
      totalBufferingTicks := 0;
      calls := [];
    }

    /** `core_audio`. */
    function CoreAudio(): Option<AudioOutput>
      reads this
    {
      audio
    }

    /** `audio_callback_internal`: queue the range asked for, take the
        oldest queued range as the one rendered, and hold back the output
        while buffering ticks remain. */
    method AudioCallbackInternal(startTsIn: nat, endTsIn: nat) returns (ready: bool, outTs: nat)
      requires audio.Some?
      modifies this
      ensures bufferedTimestamps == (old(bufferedTimestamps) + [TsInfo(startTsIn, endTsIn)])[1..]
      ensures outTs == (old(bufferedTimestamps) + [TsInfo(startTsIn, endTsIn)])[0].start
      ensures |bufferedTimestamps| == |old(bufferedTimestamps)|
      ensures outTs == if old(bufferedTimestamps) == [] then startTsIn else old(bufferedTimestamps)[0].start
      ensures ready <==> old(bufferingWaitTicks) == 0
      ensures bufferingWaitTicks == if ready then old(bufferingWaitTicks) else old(bufferingWaitTicks) - 1
      ensures audio == old(audio) && bufferedTs == old(bufferedTs) && calls == old(calls)
      ensures totalBufferingTicks == old(totalBufferingTicks)
    {
      var ts := TsInfo(startTsIn, endTsIn);
      bufferedTimestamps := bufferedTimestamps + [ts];
      ts := bufferedTimestamps[0];
      bufferedTimestamps := bufferedTimestamps[1..];
      outTs := ts.start;
      if bufferingWaitTicks != 0 {
        bufferingWaitTicks := bufferingWaitTicks - 1;
        return false, outTs;
      }
      return true, outTs;
    }

    /** `free_audio`: close the output, if any, and clear the queue and the
        buffering counters. The output itself is kept. */
    method FreeAudio()
      modifies this
      ensures calls == old(calls) + (if audio.Some? then [Close(audio.value)] else [])
      ensures audio == old(audio) && bufferedTimestamps == []
      ensures bufferedTs == 0 && bufferingWaitTicks == 0 && totalBufferingTicks == 0
    {
      if audio.Some? {
        calls := calls + [Close(audio.value)];
      }
      bufferedTimestamps := [];
      bufferedTs := 0;
      bufferingWaitTicks := 0;
      totalBufferingTicks := 0;
    }

    /** `lite_obs_start_audio`. `outputActive` is what the current output
        reports as its activity, and `openSucceeds` whether opening the new
        output succeeds. An active output refuses the restart; otherwise
        the state is freed, and with settings a new output is opened and
        taken on success. */
    method StartAudio(oai: Option<ObsAudioInfo>, outputActive: bool, openSucceeds: bool) returns (ok: bool)
      modifies this
      ensures old(audio).Some? && outputActive ==>
        !ok && audio == old(audio) && bufferedTimestamps == old(bufferedTimestamps) && calls == old(calls)
        && bufferedTs == old(bufferedTs) && bufferingWaitTicks == old(bufferingWaitTicks)
        && totalBufferingTicks == old(totalBufferingTicks)
      ensures !(old(audio).Some? && outputActive) ==>
        bufferedTimestamps == [] && bufferedTs == 0 && bufferingWaitTicks == 0 && totalBufferingTicks == 0
        && calls == old(calls) + (if old(audio).Some? then [Close(old(audio).value)] else [])
                   + (if oai.Some? then [Open(Settings(oai.value))] else [])
        && ok == (oai.None? || openSucceeds)
        && audio == if oai.Some? && openSucceeds then Some(AudioOutput(Settings(oai.value))) else old(audio)
      ensures ok && oai.Some? ==> CoreAudio() == Some(AudioOutput(Settings(oai.value)))
    {
      if audio.Some? && outputActive {
        return false;
      }
      FreeAudio();
      if oai.None? {
        return true;
      }
      var ai := Settings(oai.value);
      calls := calls + [Open(ai)];
      if !openSucceeds {
        return false;
      }
      audio := Some(AudioOutput(ai));
      return true;
    }

    /** `lite_obs_stop_audio`: close and drop the output, then free the
        state. */
    method StopAudio()
      modifies this
      ensures calls == old(calls) + (if old(audio).Some? then [Close(old(audio).value)] else [])
      ensures audio == None && bufferedTimestamps == []
      ensures bufferedTs == 0 && bufferingWaitTicks == 0 && totalBufferingTicks == 0
      ensures CoreAudio().None?
    {
      if audio.Some? {
        calls := calls + [Close(audio.value)];
        audio := None;
      }
      FreeAudio();
    }
  }

  /** The output settings `lite_obs_start_audio` derives from the caller's:
      planar float samples at the caller's rate and speaker layout. */
  function Settings(oai: ObsAudioInfo): (ai: AudioOutputInfo)
    ensures ai.samplesPerSec == oai.samplesPerSec && ai.speakers == oai.speakers
    ensures ai.name == "Audio" && ai.format == FloatPlanar
  {
    AudioOutputInfo("Audio", oai.samplesPerSec, FloatPlanar, oai.speakers)
  }
}

// The core video state as far as it reaches here: two activity counters
// and the test that video is running.
module CoreVideo {

  /** The counters of raw outputs and of GPU encoders using the video;
      both are signed. */
  datatype CoreVideoState = CoreVideoState(rawActive: int, gpuEncoderActive: int)

  /** The constructor: both counters value-initialised to zero. */
  function NewCoreVideo(): (v: CoreVideoState)
    ensures v.rawActive == 0 && v.gpuEncoderActive == 0
  {
    CoreVideoState(0, 0)
  }

  /** `obs_video_active`. */
  predicate VideoActive(v: CoreVideoState)
  {
    v.rawActive > 0 || v.gpuEncoderActive > 0
  }

  /** `stop_video` does nothing. */
  function StopVideo(v: CoreVideoState): (r: CoreVideoState)
    ensures r == v
  {
    v
  }

  /** A new instance is not active. */
  lemma NewInactive()
    ensures !VideoActive(NewCoreVideo())
  {
  }

  /** Either counter being positive makes the video active, and counters at
      or below zero (a counter decremented too often) never do. */
  lemma ActiveExactly(v: CoreVideoState)
    ensures v.rawActive > 0 ==> VideoActive(v)
    ensures v.gpuEncoderActive > 0 ==> VideoActive(v)
    ensures v.rawActive <= 0 && v.gpuEncoderActive <= 0 ==> !VideoActive(v)
  {
  }

  /** Stopping leaves the activity as it was. */
  lemma StopKeepsActivity(v: CoreVideoState)
    ensures VideoActive(StopVideo(v)) == VideoActive(v)
  {
  }
}

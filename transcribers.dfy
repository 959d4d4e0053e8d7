/** The model lifecycle of the two local transcribers. Loading and running
    the speech model are outside the model: a load is represented by the
    settings it uses and by whether the speech library accepts the
    configured compute type, and inference by the segment texts it yields. */
module Transcribers {
  import opened Common
  import Text

  /** The compute type a failed load falls back to. */
  const Fallback := "float32"

  /** A loaded speech model, identified by the settings it was loaded with. */
  datatype WhisperModel = WhisperModel(size: string, computeType: string, device: string)

  /** The compute type a model ends up loaded with: the configured one, or
      "float32" when the library rejects the configured one with a
      ValueError. */
  function LoadedComputeType(configured: string, supported: bool): (t: string)
    ensures supported ==> t == configured
    ensures !supported ==> t == "float32"
  {
    if supported then configured else Fallback
  }

  /** `LocalTranscriber` (src/localtranscriber.py). The constructor leaves
      the model unloaded and starts `start` on a thread; here that call is
      a separate step. */
  class LocalTranscriber {
    const modelSize: string
    const language: string
    const device: string
    var computeType: string
    var model: Option<WhisperModel>

    constructor(modelSize: string, computeType: string, language: string, device: string)
      ensures this.modelSize == modelSize && this.language == language && this.device == device
      ensures this.computeType == computeType && model == None
    {
      this.modelSize := modelSize;
      this.computeType := computeType;
      this.language := language;
      this.device := device;
      model := None;
    }

    /** `start`: do nothing when a model is loaded; otherwise load one,
        falling back to "float32" when the compute type is rejected. */
    method Start(supported: bool)
      modifies this
      ensures old(model).Some? ==> unchanged(this)
      ensures old(model).None? ==>
        && computeType == LoadedComputeType(old(computeType), supported)
        && model == Some(WhisperModel(modelSize, computeType, device))
    {
      if model.Some? {
        return;
      }
      if supported {
        model := Some(WhisperModel(modelSize, computeType, device));
      } else {
        computeType := Fallback;
        model := Some(WhisperModel(modelSize, computeType, device));
      }
    }

    /** `stop`: release the model. */
    method Stop()
      modifies this
      ensures model == None && computeType == old(computeType)
    {
      model := None;
    }

    /** `transcribe_audio`: load the model first if there is none, then
        build the transcript from the segment texts the model yields for the
        audio. */
    method TranscribeAudio(segments: seq<string>, supported: bool) returns (text: string)
      modifies this
      ensures text == Text.Transcribe(segments)
      ensures model.Some?
      ensures old(model).Some? ==> unchanged(this)
      ensures old(model).None? ==>
        && computeType == LoadedComputeType(old(computeType), supported)
        && model == Some(WhisperModel(modelSize, computeType, device))
    {
      if model.None? {
        Start(supported);
      }
      text := Text.Transcribe(segments);
    }
  }

  /** After `stop`, the next transcription loads the model again, with the
      compute type it had (or the fallback), and still yields the
      transcript. */
  method StopThenTranscribe(t: LocalTranscriber, segments: seq<string>, supported: bool) returns (text: string)
    modifies t
    ensures t.model == Some(WhisperModel(t.modelSize, LoadedComputeType(old(t.computeType), supported), t.device))
    ensures text == Text.Transcribe(segments)
  {
    t.Stop();
    text := t.TranscribeAudio(segments, supported);
  }

  /** `LocalTranscriber` (localtranscriber.py): the constructor loads the
      model at once, with the same fallback; `post_process` is
      Text.PostProcess. */
  class LegacyLocalTranscriber {
    const modelSize: string
    const language: string
    const device: string
    var computeType: string
    var model: Option<WhisperModel>

    constructor(modelSize: string, computeType: string, language: string, device: string, supported: bool)
      ensures this.modelSize == modelSize && this.language == language && this.device == device
      ensures this.computeType == LoadedComputeType(computeType, supported)
      ensures model == Some(WhisperModel(modelSize, this.computeType, device))
    {
      this.modelSize := modelSize;
      this.computeType := computeType;
      this.language := language;
      this.device := device;
      if !supported {
        this.computeType := Fallback;
      }
      model := Some(WhisperModel(modelSize, this.computeType, device));
    }

    /** `transcribe_audio`, which needs a loaded model (there is no reload
        after `stop` in this version). */
    method TranscribeAudio(segments: seq<string>) returns (text: string)
      requires model.Some?
      ensures text == Text.TranscribeLegacy(segments)
    {
      text := Text.TranscribeLegacy(segments);
    }

    /** `stop`: release the model. */
    method Stop()
      modifies this
      ensures model == None && computeType == old(computeType)
    {
      model := None;
    }
  }
}

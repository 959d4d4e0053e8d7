/** The older hotkey handler of hotkeyhandler.py: no keyboard lock, no
    heartbeat, the constructor does not start it, the transcript is
    post-processed by the handler, and the retype hotkey pastes rather than
    types key by key. */
module LegacyHotkeys {
  import opened Recording
  import opened Messaging
  import opened Typing
  import opened Keyboard
  import Text

  const Component := "HotkeyHandler"

  function Status(status: string, message: string): StatusMessage {
    StatusMessage(status, Component, message)
  }

  /** What `start` registers: press and release of the hotkey, and the retype
      hotkey bound to the plain (pasting) `type_transcription`. */
  function LegacyBindings(hotkey: string, retypeHotkey: string): (b: set<Binding>)
    ensures |b| == 3
    ensures Binding(hotkey, StartRecordingAction, false, true) in b
    ensures Binding(hotkey, StopRecordingAction, true, true) in b
    ensures Binding(retypeHotkey, TypeAction, false, true) in b
    ensures forall x :: x in b ==> x.suppress && x.action != RetypeAction
  {
    var press := Binding(hotkey, StartRecordingAction, false, true);
    var release := Binding(hotkey, StopRecordingAction, true, true);
    var retype := Binding(retypeHotkey, TypeAction, false, true);
    assert press != release && press != retype && release != retype;
    {press, release, retype}
  }

  /** `HotkeyHandler` (hotkeyhandler.py). `transcribe` is the transcriber's
      `transcribe_audio`; its `post_process` is Text.PostProcess. */
  class HotkeyHandler {
    const hotkey: string
    const retypeHotkey: string
    const recorder: Recorder
    const transcribe: Payload -> string
    const typer: TextTyper
    const queue: WhisperQueue
    var transcription: string
    var running: bool
    var bindings: set<Binding>

    /** A new handler is not running and has no transcript yet. */
    constructor(hotkey: string, retypeHotkey: string, recorder: Recorder,
                transcribe: Payload -> string, typer: TextTyper, queue: WhisperQueue)
      ensures this.hotkey == hotkey && this.retypeHotkey == retypeHotkey && this.recorder == recorder
      ensures this.transcribe == transcribe && this.typer == typer && this.queue == queue
      ensures !running && transcription == "" && bindings == {}
    {
      this.hotkey := hotkey;
      this.retypeHotkey := retypeHotkey;
      this.recorder := recorder;
      this.transcribe := transcribe;
      this.typer := typer;
      this.queue := queue;
      transcription := "";
      running := false;
      bindings := {};
    }

    /** Press of the hotkey: ignored while recording; otherwise announce
        "recording" and start capturing. */
    method StartRecording()
      requires recorder.Valid()
      modifies recorder, queue
      ensures recorder.Valid()
      ensures old(recorder.isRecording) ==> unchanged(recorder, queue)
      ensures !old(recorder.isRecording) ==>
        && queue.items == old(queue.items) + [Status("recording", "Capturing audio...")]
        && recorder.State() == OnStart(old(recorder.State()))
        && recorder.streamOpen == old(recorder.streamOpen)
    {
      if !recorder.isRecording {
        queue.SendMessage("recording", Component, "Capturing audio...");
        recorder.StartAudioCapture();
      }
    }

    /** Release of the hotkey: stop the capture, transcribe, post-process,
        and type the result. */
    method StopRecording()
      requires recorder.Valid()
      modifies this, recorder, queue, typer
      ensures recorder.Valid() && recorder.State() == OnStop(old(recorder.State()))
      ensures recorder.streamOpen == old(recorder.streamOpen)
      ensures transcription == Text.PostProcess(transcribe(PayloadOf(old(recorder.frames))))
      ensures queue.items == old(queue.items) +
        [Status("transcribing", "Transcribing audio..."),
         Status("typing", "Typing out transcription..."),
         Status("ready", "Done typing transcription")]
      ensures typer.typed == old(typer.typed) + [Pasted(transcription)]
      ensures running == old(running) && bindings == old(bindings)
    {
      var audio := recorder.StopAudioCapture();
      queue.SendMessage("transcribing", Component, "Transcribing audio...");
      transcription := transcribe(audio);
      transcription := Text.PostProcess(transcription);
      TypeTranscription();
    }

    /** Announce "typing", paste the last transcript, announce "ready"; also
        what the retype hotkey runs. */
    method TypeTranscription()
      modifies queue, typer
      ensures queue.items == old(queue.items) +
        [Status("typing", "Typing out transcription..."), Status("ready", "Done typing transcription")]
      ensures typer.typed == old(typer.typed) + [Pasted(transcription)]
    {
      queue.SendMessage("typing", Component, "Typing out transcription...");
      typer.TypeText(transcription);
      queue.SendMessage("ready", Component, "Done typing transcription");
    }

    /** Start when not running: register the hotkeys and announce "ready". A
        second start does nothing. */
    method Start()
      modifies this, queue
      ensures running
      ensures old(running) ==> unchanged(this, queue)
      ensures !old(running) ==>
        && bindings == old(bindings) + LegacyBindings(hotkey, retypeHotkey)
        && queue.items == old(queue.items) + [Status("ready", "Ready for hotkeys.")]
      ensures transcription == old(transcription)
    {
      if !running {
        running := true;
        bindings := bindings + LegacyBindings(hotkey, retypeHotkey);
        queue.SendMessage("ready", Component, "Ready for hotkeys.");
      }
    }

    /** Stop when running: unhook every hotkey, stop the capture, close the
        audio stream and announce "disabled". A second stop does nothing. */
    method Stop()
      requires recorder.Valid()
      modifies this, recorder, queue
      ensures recorder.Valid() && !running
      ensures !old(running) ==> unchanged(this, recorder, queue)
      ensures old(running) ==>
        && bindings == {}
        && queue.items == old(queue.items) + [Status("disabled", "HotkeyHandler stopped.")]
        && recorder.frames == old(recorder.frames) && recorder.ring == old(recorder.ring)
        && !recorder.isRecording && !recorder.streamRunning && !recorder.streamOpen
      ensures transcription == old(transcription)
    {
      if running {
        running := false;
        bindings := {};
        var _ := recorder.StopAudioCapture();
        recorder.Close();
        queue.SendMessage("disabled", Component, "HotkeyHandler stopped.");
      }
    }
  }

  /** Every transcript the older handler types is post-processed: it never
      starts with whitespace, and a non-empty one ends with whitespace. */
  method TranscriptIsNormalised(h: HotkeyHandler)
    requires h.recorder.Valid()
    modifies h, h.recorder, h.queue, h.typer
    ensures h.transcription != [] ==> !Text.IsSpace(h.transcription[0])
    ensures h.transcription != [] ==> Text.IsSpace(h.transcription[|h.transcription| - 1])
  {
    h.StopRecording();
    Text.PostProcessNormalised(h.transcribe(PayloadOf(old(h.recorder.frames))));
  }
}

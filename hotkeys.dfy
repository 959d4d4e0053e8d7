/** The hotkey handler of src/hotkeyhandler.py: holding the hotkey records,
    releasing it transcribes and types, a second hotkey retypes the last
    transcript; the keyboard lock orders press and release against the
    periodic re-registration of the hotkeys. */
module Hotkeys {
  import opened Recording
  import opened Messaging
  import opened Typing
  import opened Keyboard

  const Component := "HotkeyHandler"

  function Status(status: string, message: string): StatusMessage {
    StatusMessage(status, Component, message)
  }

  /** What `register_hotkeys` installs: press and release of the hotkey, and
      press of the retype hotkey, all suppressed. */
  function HandlerBindings(hotkey: string, retypeHotkey: string): (b: set<Binding>)
    ensures |b| == 3
    ensures Binding(hotkey, StartRecordingAction, false, true) in b
    ensures Binding(hotkey, StopRecordingAction, true, true) in b
    ensures Binding(retypeHotkey, RetypeAction, false, true) in b
    ensures forall x :: x in b ==> x.suppress
  {
    var press := Binding(hotkey, StartRecordingAction, false, true);
    var release := Binding(hotkey, StopRecordingAction, true, true);
    var retype := Binding(retypeHotkey, RetypeAction, false, true);
    assert press != release && press != retype && release != retype;
    {press, release, retype}
  }

  /** The status messages of one transcription hand-off, in order. */
  function SessionEnd(): seq<StatusMessage> {
    [Status("transcribing", "Transcribing audio..."),
     Status("typing", "Typing out transcription..."),
     Status("ready", "Done typing transcription")]
  }

  /** `HotkeyHandler` (src/hotkeyhandler.py). The recorder, the transcriber,
      the text typer and the status queue are collaborators; the transcriber
      is the function from captured audio to text that it computes. The
      keyboard lock is a flag, and the process-wide hotkey registrations are
      the `bindings` set. */
  class HotkeyHandler {
    const hotkey: string
    const retypeHotkey: string
    const recorder: Recorder
    const transcribe: Payload -> string
    const typer: TextTyper
    const queue: WhisperQueue
    var transcription: string
    var running: bool
    var lockHeld: bool
    var bindings: set<Binding>

    /** The lock is only ever held between a processed press and its
        release, and a processed press leaves the recorder recording. */
    ghost predicate Valid()
      reads this, recorder
    {
      recorder.Valid() && (lockHeld ==> recorder.isRecording)
    }

    /** The constructor ends by calling `start`. */
    constructor(hotkey: string, retypeHotkey: string, recorder: Recorder,
                transcribe: Payload -> string, typer: TextTyper, queue: WhisperQueue)
      requires recorder.Valid()
      modifies queue
      ensures Valid()
      ensures this.hotkey == hotkey && this.retypeHotkey == retypeHotkey && this.recorder == recorder
      ensures this.transcribe == transcribe && this.typer == typer && this.queue == queue
      ensures running && !lockHeld && transcription == ""
      ensures bindings == HandlerBindings(hotkey, retypeHotkey)
      ensures queue.items == old(queue.items) + [Status("ready", "Ready for hotkeys.")]
    {
      this.hotkey := hotkey;
      this.retypeHotkey := retypeHotkey;
      this.recorder := recorder;
      this.transcribe := transcribe;
      this.typer := typer;
      this.queue := queue;
      transcription := "";
      running := false;
      lockHeld := false;
      bindings := {};
      new;
      Start();
    }

    /** Press of the hotkey: ignored while the recorder is recording;
        otherwise take the lock, announce "recording" and start capturing. */
    method StartRecording()
      requires Valid()
      modifies this, recorder, queue
      ensures Valid()
      ensures old(recorder.isRecording) ==> unchanged(this, recorder, queue)
      ensures !old(recorder.isRecording) ==>
        && lockHeld
        && queue.items == old(queue.items) + [Status("recording", "Capturing audio...")]
        && recorder.State() == OnStart(old(recorder.State()))
        && recorder.streamOpen == old(recorder.streamOpen)
      ensures transcription == old(transcription) && running == old(running) && bindings == old(bindings)
    {
      if !recorder.isRecording {
        assert !lockHeld;  // so acquiring the lock does not wait
        lockHeld := true;
        queue.SendMessage("recording", Component, "Capturing audio...");
        recorder.StartAudioCapture();
      }
    }

    /** Release of the hotkey: release the lock if it is held, stop the
        capture, transcribe the audio, and type the transcript. */
    method StopRecording()
      requires Valid()
      modifies this, recorder, queue, typer
      ensures Valid() && !lockHeld
      ensures recorder.State() == OnStop(old(recorder.State()))
      ensures recorder.streamOpen == old(recorder.streamOpen)
      ensures transcription == transcribe(PayloadOf(old(recorder.frames)))
      ensures queue.items == old(queue.items) + SessionEnd()
      ensures typer.typed == old(typer.typed) + [Pasted(transcription)]
      ensures running == old(running) && bindings == old(bindings)
    {
      if lockHeld {
        lockHeld := false;
      }
      var audio := recorder.StopAudioCapture();
      queue.SendMessage("transcribing", Component, "Transcribing audio...");
      transcription := transcribe(audio);
      TypeTranscription();
    }

    /** Release of the hotkey as evidently intended: as StopRecording, but
        the capture is taken with TakeAudioCapture, so the audio of one
        session is handed off once. */
    method StopRecordingOnce()
      requires Valid()
      modifies this, recorder, queue, typer
      ensures Valid() && !lockHeld
      ensures recorder.State() == OnStop(old(recorder.State())).(frames := [])
      ensures recorder.streamOpen == old(recorder.streamOpen)
      ensures transcription == transcribe(PayloadOf(old(recorder.frames)))
      ensures queue.items == old(queue.items) + SessionEnd()
      ensures typer.typed == old(typer.typed) + [Pasted(transcription)]
      ensures running == old(running) && bindings == old(bindings)
    {
      if lockHeld {
        lockHeld := false;
      }
      var audio := recorder.TakeAudioCapture();
      queue.SendMessage("transcribing", Component, "Transcribing audio...");
      transcription := transcribe(audio);
      TypeTranscription();
    }

    /** Announce "typing", paste the last transcript, announce "ready". */
    method TypeTranscription()
      modifies queue, typer
      ensures queue.items == old(queue.items) +
        [Status("typing", "Typing out transcription..."), Status("ready", "Done typing transcription")]
      ensures typer.typed == old(typer.typed) + [Pasted(transcription)]
    {
      queue.SendMessage("typing", Component, "Typing out transcription...");
      typer.TypeText(transcription);
      queue.SendMessage("ready", Component, "Done typing transcription");
    }

    /** Press of the retype hotkey: type the stored transcript again, key by
        key; the recorder is not touched. */
    method RetypeTranscription()
      modifies queue, typer
      ensures queue.items == old(queue.items) +
        [Status("typing", "Retyping transcription (safe)"), Status("ready", "Done retyping transcription")]
      ensures typer.typed == old(typer.typed) + [Typewritten(transcription)]
    {
      queue.SendMessage("typing", Component, "Retyping transcription (safe)");
      typer.SafeTypeText(transcription);
      queue.SendMessage("ready", Component, "Done retyping transcription");
    }

    /** Start when not running: register the hotkeys (the heartbeat then runs
        while `running`) and announce "ready". A second start does nothing.
        Registering takes the lock, so it happens once the lock is free. */
    method Start()
      requires Valid() && (!running ==> !lockHeld)
      modifies this, queue
      ensures Valid() && running
      ensures old(running) ==> unchanged(this, queue)
      ensures !old(running) ==>
        && bindings == old(bindings) + HandlerBindings(hotkey, retypeHotkey)
        && queue.items == old(queue.items) + [Status("ready", "Ready for hotkeys.")]
      ensures transcription == old(transcription) && lockHeld == old(lockHeld)
    {
      if !running {
        running := true;
        RegisterHotkeys();
        queue.SendMessage("ready", Component, "Ready for hotkeys.");
      }
    }

    /** Stop when running: unhook every hotkey, stop the capture, close the
        audio stream and announce "disabled". A second stop does nothing.
        Unhooking takes the lock, so it happens once the lock is free. */
    method Stop()
      requires Valid() && (running ==> !lockHeld)
      modifies this, recorder, queue
      ensures Valid() && !running
      ensures !old(running) ==> unchanged(this, recorder, queue)
      ensures old(running) ==>
        && bindings == {}
        && queue.items == old(queue.items) + [Status("disabled", "HotkeyHandler stopped.")]
        && recorder.frames == old(recorder.frames) && recorder.ring == old(recorder.ring)
        && !recorder.isRecording && !recorder.streamRunning && !recorder.streamOpen
      ensures transcription == old(transcription) && lockHeld == old(lockHeld)
    {
      if running {
        running := false;
        bindings := {};
        var _ := recorder.StopAudioCapture();
        recorder.Close();
        queue.SendMessage("disabled", Component, "HotkeyHandler stopped.");
      }
    }

    /** `register_hotkeys`: add the three bindings, under the lock. */
    method RegisterHotkeys()
      requires !lockHeld
      modifies this
      ensures bindings == old(bindings) + HandlerBindings(hotkey, retypeHotkey)
      ensures transcription == old(transcription) && running == old(running) && lockHeld == old(lockHeld)
    {
      bindings := bindings + HandlerBindings(hotkey, retypeHotkey);
    }

    /** The part of the heartbeat loop that follows its five-second sleep, as
        written: unhook everything, then register again. It does not look at
        `running`, which the loop only checks before the sleep. */
    method HeartbeatRebind()
      requires Valid() && !lockHeld
      modifies this
      ensures Valid()
      ensures bindings == HandlerBindings(hotkey, retypeHotkey)
      ensures transcription == old(transcription) && running == old(running) && lockHeld == old(lockHeld)
    {
      bindings := {};
      RegisterHotkeys();
    }

    /** One heartbeat iteration as intended: while running, the bindings are
        reset to exactly the handler's three, whatever the operating system
        dropped in the meantime; once stopped, nothing is re-registered. */
    method HeartbeatIteration()
      requires Valid() && (running ==> !lockHeld)
      modifies this
      ensures Valid()
      ensures old(running) ==> bindings == HandlerBindings(hotkey, retypeHotkey)
      ensures !old(running) ==> unchanged(this)
      ensures transcription == old(transcription) && running == old(running) && lockHeld == old(lockHeld)
    {
      if running {
        HeartbeatRebind();
      }
    }
  }

  /** One press-and-release of the hotkey on an idle handler: the statuses
      are recording, transcribing, typing, ready, in that order; the audio
      transcribed is what the recorder captured from the start (with the
      pre-roll ring in buffered mode); the transcript is pasted once. */
  method PressAndRelease(h: HotkeyHandler)
    requires h.Valid() && !h.recorder.isRecording
    modifies h, h.recorder, h.queue, h.typer
    ensures h.Valid() && !h.lockHeld && !h.recorder.isRecording
    ensures h.queue.items == old(h.queue.items) + [Status("recording", "Capturing audio...")] + SessionEnd()
    ensures h.transcription == h.transcribe(PayloadOf(OnStart(old(h.recorder.State())).frames))
    ensures h.typer.typed == old(h.typer.typed) + [Pasted(h.transcription)]
    ensures h.bindings == old(h.bindings) && h.running == old(h.running)
  {
    h.StartRecording();
    h.StopRecording();
  }

  /** A release whose press was never processed (the lock is free and the
      recorder idle) still finalises, without waiting on the lock, and
      transcribes and pastes whatever frames the recorder still holds: after
      an earlier session, that session's audio. */
  method ReleaseWithoutPress(h: HotkeyHandler)
    requires h.Valid() && !h.lockHeld && !h.recorder.isRecording
    modifies h, h.recorder, h.queue, h.typer
    ensures !h.lockHeld && h.queue.items == old(h.queue.items) + SessionEnd()
    ensures h.transcription == h.transcribe(PayloadOf(old(h.recorder.frames)))
    ensures h.typer.typed == old(h.typer.typed) + [Pasted(h.transcription)]
  {
    h.StopRecording();
  }

  /** As written: a second release after a complete session, with no press
      in between, transcribes the same frames again and pastes the same
      transcript a second time. */
  method RepeatedRelease(h: HotkeyHandler)
    requires h.Valid() && !h.recorder.isRecording
    modifies h, h.recorder, h.queue, h.typer
    ensures var t := h.transcribe(PayloadOf(OnStart(old(h.recorder.State())).frames));
            h.typer.typed == old(h.typer.typed) + [Pasted(t), Pasted(t)]
  {
    h.StartRecording();
    h.StopRecording();
    h.StopRecording();
  }

  /** As intended: the second release hands off an empty capture, so the
      session's transcript is pasted once and the second paste is the
      transcript of no audio. */
  method RepeatedReleaseOnce(h: HotkeyHandler)
    requires h.Valid() && !h.recorder.isRecording
    modifies h, h.recorder, h.queue, h.typer
    ensures var t := h.transcribe(PayloadOf(OnStart(old(h.recorder.State())).frames));
            h.typer.typed == old(h.typer.typed) + [Pasted(t), Pasted(h.transcribe(Payload(1, 2, 16000, [])))]
  {
    h.StartRecording();
    h.StopRecordingOnce();
    h.StopRecordingOnce();
  }

  /** Between a processed press and its release the lock is held, so a
      heartbeat cannot rebind there; once the release is processed the
      heartbeat restores exactly the three bindings, the release binding
      among them. */
  method RebindAfterRelease(h: HotkeyHandler)
    requires h.Valid() && h.running && !h.recorder.isRecording
    modifies h, h.recorder, h.queue, h.typer
    ensures h.bindings == HandlerBindings(h.hotkey, h.retypeHotkey)
    ensures Binding(h.hotkey, StopRecordingAction, true, true) in h.bindings
  {
    h.StartRecording();
    assert h.lockHeld;
    h.StopRecording();
    h.HeartbeatIteration();
  }

  /** The heartbeat as written: a stop during the heartbeat's sleep is
      followed by the rest of that iteration, which registers the three
      hotkeys again although the handler is stopped. */
  method StopDuringHeartbeatSleep(h: HotkeyHandler)
    requires h.Valid() && h.running && !h.lockHeld
    modifies h, h.recorder, h.queue
    ensures !h.running && h.bindings == HandlerBindings(h.hotkey, h.retypeHotkey)
    ensures h.bindings != {}
  {
    h.Stop();
    h.HeartbeatRebind();
  }

  /** The heartbeat as intended: after a stop, an iteration registers
      nothing, so the handler stays unhooked. */
  method StopThenHeartbeat(h: HotkeyHandler)
    requires h.Valid() && h.running && !h.lockHeld
    modifies h, h.recorder, h.queue
    ensures !h.running && h.bindings == {}
  {
    h.Stop();
    h.HeartbeatIteration();
  }
}

/** The recorder of recorder.py: an audio stream whose callback routes every
    chunk either to the frames of the recording in progress or to a pre-roll
    ring of the last eight chunks, and the start/stop of a capture, which
    splices the pre-roll in and hands back the captured audio. */
module Recording {
  import opened Common

  /** One signed 16-bit PCM sample. */
  newtype int16 = x: int | -0x8000 <= x < 0x8000

  /** The samples of one callback delivery (`np.frombuffer(in_data, dtype=np.int16)`). */
  type Chunk = seq<int16>

  /** `collections.deque(maxlen=8)` (recorder.py:18). */
  const RingCapacity: nat := 8

  /** The capture format: mono, 16-bit (2-byte) samples, 16000 frames per second. */
  const Channels: nat := 1
  const SampleWidth: nat := 2
  const FrameRate: nat := 16000

  /** The audio handed back by a stopped capture: the concatenated samples
      and the format written into the WAV container. */
  datatype Payload = Payload(channels: nat, sampleWidth: nat, frameRate: nat, samples: seq<int16>)

  /** `deque.append` on a deque bounded to RingCapacity: append at the right,
      and drop the leftmost (oldest) chunk when the ring was full. */
  function RingAppend(ring: seq<Chunk>, c: Chunk): (r: seq<Chunk>)
    requires |ring| <= RingCapacity
    ensures |r| <= RingCapacity
    ensures r == LastN(ring + [c], RingCapacity)
    ensures |ring| == RingCapacity ==> r == ring[1..] + [c]
  {
    if |ring| < RingCapacity then ring + [c] else ring[1..] + [c]
  }

  /** The fields of a Recorder that the capture logic reads and writes. */
  datatype RecorderState = RecorderState(
    buffered: bool,          // pre-roll mode, fixed at construction
    frames: seq<Chunk>,      // the recording in progress
    ring: seq<Chunk>,        // the pre-roll ring
    isRecording: bool,
    streamRunning: bool)     // whether the input stream delivers callbacks

  predicate ValidState(s: RecorderState) {
    |s.ring| <= RingCapacity
  }

  /** A freshly constructed recorder: nothing captured, not recording, and the
      stream running from the start only in pre-roll mode. */
  function Initial(buffered: bool): (s: RecorderState)
    ensures ValidState(s) && s.frames == [] && s.ring == [] && !s.isRecording
    ensures s.streamRunning <==> buffered
  {
    RecorderState(buffered, [], [], false, buffered)
  }

  /** `audio_callback`: the chunk goes to the frames while recording, else
      into the ring. */
  function OnChunk(s: RecorderState, c: Chunk): (t: RecorderState)
    requires ValidState(s)
    ensures ValidState(t)
    ensures s.isRecording ==> t == s.(frames := s.frames + [c])
    ensures !s.isRecording ==> t == s.(ring := LastN(s.ring + [c], RingCapacity))
  {
    if s.isRecording then s.(frames := s.frames + [c]) else s.(ring := RingAppend(s.ring, c))
  }

  /** `start_audio_capture`: in pre-roll mode the frames become the ring's
      contents and the ring is emptied; otherwise the frames are emptied and
      the stream is started. Either way the recorder is then recording. */
  function OnStart(s: RecorderState): (t: RecorderState)
    ensures t.isRecording && t.buffered == s.buffered
    ensures s.buffered ==> t.frames == s.ring && t.ring == [] && t.streamRunning == s.streamRunning
    ensures !s.buffered ==> t.frames == [] && t.ring == s.ring && t.streamRunning
  {
    if s.buffered then s.(frames := s.ring, ring := [], isRecording := true)
    else s.(frames := [], streamRunning := true, isRecording := true)
  }

  /** The audio a capture hands back for the given frames. */
  function PayloadOf(frames: seq<Chunk>): (p: Payload)
    ensures p.channels == 1 && p.sampleWidth == 2 && p.frameRate == 16000
    ensures frames == [] ==> p.samples == []
    ensures forall k :: 0 <= k < |frames| ==>
      p.samples == Flatten(frames[..k]) + frames[k] + Flatten(frames[k + 1..])
  {
    forall k | 0 <= k < |frames|
      ensures Flatten(frames) == Flatten(frames[..k]) + frames[k] + Flatten(frames[k + 1..])
    {
      FlattenPart(frames, k);
    }
    Payload(Channels, SampleWidth, FrameRate, Flatten(frames))
  }

  /** The recorder state after `stop_audio_capture`: not recording, the stream
      stopped only when it was started on demand, frames and ring kept. */
  function OnStop(s: RecorderState): (t: RecorderState)
    ensures !t.isRecording && t.frames == s.frames && t.ring == s.ring && t.buffered == s.buffered
    ensures t.streamRunning == (s.buffered && s.streamRunning)
  {
    s.(isRecording := false, streamRunning := if s.buffered then s.streamRunning else false)
  }

  /** The recorder state after the callback has delivered `cs`, in order. */
  function Deliver(s: RecorderState, cs: seq<Chunk>): (t: RecorderState)
    requires ValidState(s)
    ensures ValidState(t)
    decreases |cs|
  {
    if cs == [] then s else Deliver(OnChunk(s, cs[0]), cs[1..])
  }

  /** While idle, the callback feeds the ring only, and the ring keeps the
      most recent RingCapacity chunks in arrival order. */
  lemma {:induction false} DeliverWhileIdle(s: RecorderState, cs: seq<Chunk>)
    requires ValidState(s) && !s.isRecording
    ensures Deliver(s, cs) == s.(ring := LastN(s.ring + cs, RingCapacity))
    decreases |cs|
  {
    if cs != [] {
      var s' := OnChunk(s, cs[0]);
      DeliverWhileIdle(s', cs[1..]);
      LastNAppend(s.ring + [cs[0]], cs[1..], RingCapacity);
      assert s.ring + [cs[0]] + cs[1..] == s.ring + cs;
    } else {
      assert s.ring + cs == s.ring;
    }
  }

  /** While recording, the callback feeds the frames only, appending every
      chunk once, in arrival order. */
  lemma {:induction false} DeliverWhileRecording(s: RecorderState, cs: seq<Chunk>)
    requires ValidState(s) && s.isRecording
    ensures Deliver(s, cs) == s.(frames := s.frames + cs)
    decreases |cs|
  {
    if cs != [] {
      DeliverWhileRecording(OnChunk(s, cs[0]), cs[1..]);
      assert s.frames + [cs[0]] + cs[1..] == s.frames + cs;
    } else {
      assert s.frames + cs == s.frames;
    }
  }

  /** Filling the ring past its capacity leaves exactly the newest
      RingCapacity chunks, the oldest evicted first. */
  lemma RingEviction(cs: seq<Chunk>)
    requires |cs| >= RingCapacity
    ensures Deliver(Initial(true), cs).ring == cs[|cs| - RingCapacity..]
  {
    var s := Initial(true);
    DeliverWhileIdle(s, cs);
    assert s.ring + cs == cs;
    assert LastN(cs, RingCapacity) == cs[|cs| - RingCapacity..];
  }

  /** Pre-roll: after the chunks `cs` arrive while idle, starting a pre-roll
      capture begins the recording with the last min(|cs|, RingCapacity) of
      them, in their original order, and leaves the ring empty. */
  lemma PrerollSplice(cs: seq<Chunk>)
    ensures OnStart(Deliver(Initial(true), cs)).frames == LastN(cs, RingCapacity)
    ensures OnStart(Deliver(Initial(true), cs)).ring == []
  {
    DeliverWhileIdle(Initial(true), cs);
    assert [] + cs == cs;
  }

  /** No loss, no duplication: over one capture cycle -- chunks `before`
      arriving while idle, a start, chunks `during` arriving while recording,
      a stop -- the audio handed back is the spliced pre-roll (pre-roll mode
      only) followed by every chunk that arrived while recording, each once,
      in arrival order. */
  lemma NoLossNoDuplication(s: RecorderState, before: seq<Chunk>, during: seq<Chunk>)
    requires ValidState(s) && !s.isRecording
    ensures var started := OnStart(Deliver(s, before));
            var stopped := Deliver(started, during);
            && stopped.frames == (if s.buffered then LastN(s.ring + before, RingCapacity) else []) + during
            && PayloadOf(stopped.frames).samples ==
                 (if s.buffered then Flatten(LastN(s.ring + before, RingCapacity)) else []) + Flatten(during)
            && !OnStop(stopped).isRecording
  {
    DeliverWhileIdle(s, before);
    var started := OnStart(Deliver(s, before));
    DeliverWhileRecording(started, during);
    FlattenAppend(started.frames, during);
  }

  /** A capture stopped with no chunk delivered hands back an empty but
      well-formed payload (no pre-roll, or an empty ring). */
  lemma BlankCapture(s: RecorderState)
    requires ValidState(s) && !s.isRecording && (s.buffered ==> s.ring == [])
    ensures PayloadOf(OnStop(OnStart(s)).frames) == Payload(1, 2, 16000, [])
  {
  }

  /** Clearing the frames at stop is invisible to the next capture: both
      branches of a start overwrite the frames. */
  lemma ClearedFramesUnseenByStart(s: RecorderState)
    ensures OnStart(OnStop(s).(frames := [])) == OnStart(OnStop(s))
  {
  }

  /** `Recorder` (recorder.py:11-68). The PyAudio device is represented by
      two flags: whether its input stream is running and whether it is
      still open. */
  class Recorder {
    const buffered: bool
    var frames: seq<Chunk>
    var ring: seq<Chunk>
    var isRecording: bool
    var streamRunning: bool
    var streamOpen: bool

    ghost predicate Valid()
      reads this
    {
      |ring| <= RingCapacity
    }

    /** The capture state, for stating what each method does. */
    function State(): (s: RecorderState)
      reads this
      ensures Valid() ==> ValidState(s)
    {
      RecorderState(buffered, frames, ring, isRecording, streamRunning)
    }

    constructor(buffered: bool)
      ensures Valid() && State() == Initial(buffered) && streamOpen
    {
      this.buffered := buffered;
      frames := [];
      ring := [];
      isRecording := false;
      streamOpen := true;
      streamRunning := buffered;
    }

    method AudioCallback(chunk: Chunk)
      requires Valid()
      modifies this
      ensures Valid() && State() == OnChunk(old(State()), chunk)
      ensures old(isRecording) ==> frames == old(frames) + [chunk] && ring == old(ring)
      ensures !old(isRecording) ==> frames == old(frames) && ring == RingAppend(old(ring), chunk)
      ensures streamOpen == old(streamOpen)
    {
      if isRecording {
        frames := frames + [chunk];
      } else {
        ring := RingAppend(ring, chunk);
      }
    }

    method StartAudioCapture()
      requires Valid()
      modifies this
      ensures Valid() && State() == OnStart(old(State()))
      ensures streamOpen == old(streamOpen)
    {
      if buffered {
        frames := [];
        frames := frames + ring;
        ring := [];
      } else {
        frames := [];
        streamRunning := true;
      }
      isRecording := true;
    }

    method StopAudioCapture() returns (audio: Payload)
      requires Valid()
      modifies this
      ensures Valid() && State() == OnStop(old(State()))
      ensures audio == PayloadOf(frames)
      ensures streamOpen == old(streamOpen)
    {
      isRecording := false;
      if !buffered {
        streamRunning := false;
      }
      audio := Payload(Channels, SampleWidth, FrameRate, Flatten(frames));
    }

    /** `stop_audio_capture` as evidently intended: as StopAudioCapture,
        but the frames it hands back are cleared, so a stop with no start
        since the previous one hands back an empty capture. */
    method TakeAudioCapture() returns (audio: Payload)
      requires Valid()
      modifies this
      ensures Valid() && State() == OnStop(old(State())).(frames := [])
      ensures audio == PayloadOf(old(frames))
      ensures streamOpen == old(streamOpen)
    {
      audio := StopAudioCapture();
      frames := [];
    }

    /** `stream.close()` and `p.terminate()`, called by the hotkey handler's
        stop. */
    method Close()
      requires Valid()
      modifies this
      ensures Valid() && !streamOpen && !streamRunning
      ensures frames == old(frames) && ring == old(ring) && isRecording == old(isRecording)
    {
      streamOpen := false;
      streamRunning := false;
    }
  }
}

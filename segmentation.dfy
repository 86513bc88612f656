/** The backend's cutting of the microphone stream into utterances: frames are
    buffered from the first loud frame on, and once more than `max_silence`
    quiet frames follow, the buffer is closed and, when long enough, handed on
    for transcription. */
module Segmentation {
  import opened Base

  /** `int(SILENCE_DURATION * SAMPLE_RATE / CHUNK_SIZE)` = int(2.0 * 16000 / 1024). */
  const MaxSilence: nat := 31
  /** `int(MIN_AUDIO_LENGTH * SAMPLE_RATE / CHUNK_SIZE)` = int(1.0 * 16000 / 1024). */
  const MinFrames: nat := 15

  /** One read from the recorder's queue: its bytes (none when the queue was
      empty) and the voice detector's verdict on them. */
  datatype Frame = Frame(data: seq<bv8>, speech: bool)

  /** What the loop emits: `speech_start`, an utterance handed to transcription
      (its frames joined), and `speech_end`. */
  datatype Event = SpeechStart | Segment(audio: seq<bv8>) | SpeechEnd

  /** The loop's variables `speech_frames`, `silence_count`, `speech_detected`. */
  datatype SegState = SegState(frames: seq<Frame>, silenceCount: nat, speechDetected: bool)

  const Initial := SegState([], 0, false)

  /** `b"".join` of the frames' bytes. */
  function JoinData(frames: seq<Frame>): seq<bv8> {
    if frames == [] then [] else JoinData(frames[..|frames| - 1]) + frames[|frames| - 1].data
  }

  /** One turn of `_audio_processing_loop`. */
  function Step(st: SegState, f: Frame): (SegState, seq<Event>) {
    if f.data == [] then (st, [])
    else
      var frames := if f.speech || st.speechDetected then st.frames + [f] else st.frames;
      var silence := if f.speech then 0 else st.silenceCount + 1;
      var started := if f.speech && !st.speechDetected then [SpeechStart] else [];
      var detected := f.speech || st.speechDetected;
      if detected && silence > MaxSilence then
        (Initial, started + (if |frames| > MinFrames then [Segment(JoinData(frames))] else []) + [SpeechEnd])
      else (SegState(frames, silence, detected), started)
  }

  /** The loop over a whole stream of frames, as a fold. */
  function Run(frames: seq<Frame>): (SegState, seq<Event>) {
    if frames == [] then (Initial, [])
    else
      var prev := Run(frames[..|frames| - 1]);
      var next := Step(prev.0, frames[|frames| - 1]);
      (next.0, prev.1 + next.1)
  }

  /** The body of one turn of `_audio_processing_loop`, on the loop's variables. */
  method ProcessFrame(frames: seq<Frame>, silence: nat, detected: bool, audioData: Frame)
    returns (speechFrames: seq<Frame>, silenceCount: nat, speechDetected: bool, emitted: seq<Event>)
    ensures (SegState(speechFrames, silenceCount, speechDetected), emitted)
            == Step(SegState(frames, silence, detected), audioData)
  {
    speechFrames, silenceCount, speechDetected := frames, silence, detected;
    emitted := [];
    if audioData.data == [] {
      return;
    }
    if audioData.speech {
      speechFrames := speechFrames + [audioData];
      silenceCount := 0;
      if !speechDetected {
        speechDetected := true;
        emitted := [SpeechStart];
      }
    } else {
      silenceCount := silenceCount + 1;
      if speechDetected {
        speechFrames := speechFrames + [audioData];
      }
    }
    if speechDetected && silenceCount > MaxSilence {
      var closing: seq<Event> := [];
      if |speechFrames| > MinFrames {
        closing := [Segment(JoinData(speechFrames))];
      }
      speechFrames := [];
      silenceCount := 0;
      speechDetected := false;
      assert emitted + closing + [SpeechEnd] == closing + [SpeechEnd];
      emitted := closing + [SpeechEnd];
    }
  }

  /** `_audio_processing_loop` over a finite stream. */
  method SegmentAudio(stream: seq<Frame>) returns (events: seq<Event>, final: SegState)
    ensures (final, events) == Run(stream)
  {
    var speechFrames: seq<Frame> := [];
    var silenceCount: nat := 0;
    var speechDetected := false;
    events := [];
    var i := 0;
    while i < |stream|
      invariant 0 <= i <= |stream|
      invariant (SegState(speechFrames, silenceCount, speechDetected), events) == Run(stream[..i])
    {
      assert stream[..i + 1][..i] == stream[..i];
      var emitted;
      speechFrames, silenceCount, speechDetected, emitted :=
        ProcessFrame(speechFrames, silenceCount, speechDetected, stream[i]);
      events := events + emitted;
      i := i + 1;
    }
    assert stream[..|stream|] == stream;
    final := SegState(speechFrames, silenceCount, speechDetected);
  }

  /** The shape of the loop's variables between turns: nothing is buffered
      before speech is detected; after that the buffer starts with a speech
      frame, its last `silenceCount` frames are the quiet ones since the last
      speech frame, and no more than `MaxSilence` of them have accumulated. */
  ghost predicate Inv(st: SegState) {
    && (!st.speechDetected ==> st.frames == [])
    && (st.speechDetected ==>
          && st.silenceCount <= MaxSilence
          && |st.frames| > st.silenceCount
          && st.frames[0].speech
          && st.frames[|st.frames| - 1 - st.silenceCount].speech
          && forall i | |st.frames| - st.silenceCount <= i < |st.frames| :: !st.frames[i].speech)
  }

  lemma StepKeepsInv(st: SegState, f: Frame)
    requires Inv(st)
    ensures Inv(Step(st, f).0)
  {
  }

  lemma {:induction false} RunKeepsInv(stream: seq<Frame>)
    ensures Inv(Run(stream).0)
  {
    if stream != [] {
      RunKeepsInv(stream[..|stream| - 1]);
      StepKeepsInv(Run(stream[..|stream| - 1]).0, stream[|stream| - 1]);
    }
  }

  /** Quiet frames before any speech are never buffered. */
  lemma {:induction false} LeadingSilenceDropped(stream: seq<Frame>)
    requires forall i | 0 <= i < |stream| :: !stream[i].speech
    ensures Run(stream).0.frames == [] && !Run(stream).0.speechDetected && Run(stream).1 == []
  {
    if stream != [] {
      LeadingSilenceDropped(stream[..|stream| - 1]);
    }
  }

  /** An utterance closes only on a quiet frame that brings the quiet run past
      `MaxSilence`; the state is then reset and `speech_end` is the last event.
      The buffer then holds the speech and the 32 quiet frames after it, so it
      always has more than `MinFrames` frames and every close hands a segment on:
      the length guard never refuses one. */
  lemma CloseRule(st: SegState, f: Frame)
    requires Inv(st)
    requires var ev := Step(st, f).1; ev != [] && ev[|ev| - 1] == SpeechEnd
    ensures f.data != [] && !f.speech && st.speechDetected && st.silenceCount == MaxSilence
    ensures Step(st, f).0 == Initial
    ensures var frames := st.frames + [f];
      && |frames| > MaxSilence + 1 > MinFrames
      && Step(st, f).1 == [Segment(JoinData(frames)), SpeechEnd]
      && frames[0].speech
      && forall i | |frames| - (MaxSilence + 1) <= i < |frames| :: !frames[i].speech
  {
  }

  /** The protocol the events follow: `speech_start` opens an utterance,
      segments and `speech_end` occur only inside one, and `speech_end` closes it. */
  function Protocol(open: bool, events: seq<Event>): (r: Option<bool>)
  {
    if events == [] then Some(open)
    else
      var prev := Protocol(open, events[..|events| - 1]);
      if prev.None? then None
      else match events[|events| - 1]
        case SpeechStart => if prev.value then None else Some(true)
        case Segment(_) => if prev.value then Some(true) else None
        case SpeechEnd => if prev.value then Some(false) else None
  }

  lemma {:induction false} ProtocolAppend(open: bool, a: seq<Event>, b: seq<Event>)
    ensures Protocol(open, a + b) == if Protocol(open, a).None? then None else Protocol(Protocol(open, a).value, b)
    decreases |b|
  {
    if b == [] {
      assert a + b == a;
    } else {
      ProtocolAppend(open, a, b[..|b| - 1]);
      assert (a + b)[..|a + b| - 1] == a + b[..|b| - 1];
    }
  }

  /** The events of any stream follow the protocol, and an utterance is open
      at the end exactly when speech is currently detected. */
  lemma {:induction false} RunFollowsProtocol(stream: seq<Frame>)
    ensures Protocol(false, Run(stream).1) == Some(Run(stream).0.speechDetected)
  {
    if stream != [] {
      var prev := Run(stream[..|stream| - 1]);
      RunFollowsProtocol(stream[..|stream| - 1]);
      RunKeepsInv(stream[..|stream| - 1]);
      var next := Step(prev.0, stream[|stream| - 1]);
      ProtocolAppend(false, prev.1, next.1);
      StepProtocol(prev.0, stream[|stream| - 1]);
    }
  }

  lemma StepProtocol(st: SegState, f: Frame)
    ensures Protocol(st.speechDetected, Step(st, f).1) == Some(Step(st, f).0.speechDetected)
  {
    var ev := Step(st, f).1;
    if |ev| == 2 {
      assert ev[..1] == [ev[0]];
      assert [ev[0]][..0] == [];
      assert Protocol(st.speechDetected, [ev[0]]) == Some(true);
    } else if |ev| == 1 {
      assert ev[..0] == [];
    }
  }
}

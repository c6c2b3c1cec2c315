/** The recording hook: microphone acquisition, chunk buffering, and the finished
    audio object with its object URL.

    The state the hook keeps is its four-field state record, the chunk buffer, and
    the current MediaRecorder (absent, capturing, asked to stop, or finished). The
    microphone stream of the current recorder is held until its completion callback
    stops the tracks; a stream the hook has lost every way of stopping is counted as
    stranded. Object URLs are serial numbers, and the set of live ones records which
    have been created and not yet revoked. */
module Recorder {
  import opened Wrappers
  import opened Types

  const MicrophoneError: string := "No se pudo acceder al micrófono. Por favor, permite el acceso."

  /** The type the finished blob is tagged with. */
  const BlobMimeType: string := "audio/webm"

  /** How `startRecording` gets on: the stream and the recorder are both obtained;
      the device request is refused; or the stream is obtained but constructing the
      MediaRecorder throws (its MIME type is not supported). */
  datatype StartOutcome = Granted | Denied | RecorderRejected

  /** The current MediaRecorder: none yet, recording, `stop()` requested with the
      completion callback still to come, or completed. */
  datatype Phase = NoRecorder | Capturing | Stopping | Finished

  datatype RecorderModel = RecorderModel(
    state: AudioRecorderState,
    chunks: seq<Blob>,
    phase: Phase,
    strandedStreams: nat,
    liveUrls: set<ObjectUrl>,
    nextUrl: nat)

  const InitialState: AudioRecorderState := AudioRecorderState(false, None, None, None)

  const InitialModel: RecorderModel := RecorderModel(InitialState, [], NoRecorder, 0, {}, 0)

  /** The current recorder's stream is held. */
  predicate DeviceHeld(m: RecorderModel) {
    m.phase.Capturing? || m.phase.Stopping?
  }

  /** All streams held: the current one and the stranded ones. */
  function HeldStreams(m: RecorderModel): nat {
    (if DeviceHeld(m) then 1 else 0) + m.strandedStreams
  }

  /** The invariant the hook keeps. */
  predicate ValidModel(m: RecorderModel) {
    && (m.state.isRecording ==> DeviceHeld(m))
    && (m.state.audioBlob.Some? <==> m.state.audioUrl.Some?)
    && (DeviceHeld(m) ==> m.state.audioUrl.None?)
    && (m.state.audioUrl.Some? ==> m.state.audioUrl.value in m.liveUrls)
    && (forall u | u in m.liveUrls :: u.serial < m.nextUrl)
    && (forall i | 0 <= i < |m.chunks| :: |m.chunks[i].bytes| > 0)
  }

  /** The bytes of the chunks, in order: what `new Blob(chunks)` holds. */
  function Concat(chunks: seq<Blob>): seq<byte> {
    if chunks == [] then [] else chunks[0].bytes + Concat(chunks[1..])
  }

  /** The sum of the chunk sizes. */
  function TotalSize(chunks: seq<Blob>): nat {
    if chunks == [] then 0 else |chunks[0].bytes| + TotalSize(chunks[1..])
  }

  /** The chunks the buffer keeps out of a delivered sequence: the non-empty ones. */
  function NonEmpty(chunks: seq<Blob>): seq<Blob> {
    if chunks == [] then []
    else (if |chunks[0].bytes| > 0 then [chunks[0]] else []) + NonEmpty(chunks[1..])
  }

  lemma {:induction false} ConcatSize(chunks: seq<Blob>)
    ensures |Concat(chunks)| == TotalSize(chunks)
  {
    if chunks != [] {
      ConcatSize(chunks[1..]);
    }
  }

  lemma {:induction false} ConcatAppend(a: seq<Blob>, b: seq<Blob>)
    ensures Concat(a + b) == Concat(a) + Concat(b)
  {
    if a == [] {
      assert a + b == b;
    } else {
      assert (a + b)[1..] == a[1..] + b;
      ConcatAppend(a[1..], b);
    }
  }

  /** Dropping empty chunks changes neither the bytes nor the size. */
  lemma {:induction false} NonEmptyKeepsBytes(chunks: seq<Blob>)
    ensures Concat(NonEmpty(chunks)) == Concat(chunks)
    ensures TotalSize(NonEmpty(chunks)) == TotalSize(chunks)
    ensures forall i | 0 <= i < |NonEmpty(chunks)| :: |NonEmpty(chunks)[i].bytes| > 0
  {
    if chunks != [] {
      var head := if |chunks[0].bytes| > 0 then [chunks[0]] else [];
      NonEmptyKeepsBytes(chunks[1..]);
      ConcatAppend(head, NonEmpty(chunks[1..]));
      TotalSizeAppend(head, NonEmpty(chunks[1..]));
      if head == [] {
        assert chunks[0].bytes == [];
        assert head + NonEmpty(chunks[1..]) == NonEmpty(chunks[1..]);
      } else {
        assert Concat(head) == chunks[0].bytes;
      }
    }
  }

  lemma {:induction false} TotalSizeAppend(a: seq<Blob>, b: seq<Blob>)
    ensures TotalSize(a + b) == TotalSize(a) + TotalSize(b)
  {
    if a == [] {
      assert a + b == b;
    } else {
      assert (a + b)[1..] == a[1..] + b;
      TotalSizeAppend(a[1..], b);
    }
  }

  /** `startRecording`. On success the buffer is emptied and the state record becomes
      recording with no blob, URL or error; the URL of an earlier recording is not
      revoked, and a recorder that was still capturing is replaced without being
      stopped, so its stream is stranded. On failure only `error` changes; if the
      stream had been obtained it is never stopped. */
  function StartStep(m: RecorderModel, outcome: StartOutcome): RecorderModel {
    match outcome
    case Denied =>
      m.(state := m.state.(error := Some(MicrophoneError)))
    case RecorderRejected =>
      m.(state := m.state.(error := Some(MicrophoneError)),
         strandedStreams := m.strandedStreams + 1)
    case Granted =>
      m.(state := m.state.(isRecording := true, error := None, audioBlob := None, audioUrl := None),
         chunks := [],
         phase := Capturing,
         strandedStreams := m.strandedStreams + (if m.phase.Capturing? then 1 else 0))
  }

  /** `ondataavailable`: a non-empty chunk goes on the end of the buffer. */
  function DataStep(m: RecorderModel, chunk: Blob): RecorderModel {
    if |chunk.bytes| > 0 then m.(chunks := m.chunks + [chunk]) else m
  }

  /** `stopRecording`: only when a recorder exists and the state says recording does
      it call `stop()`, which asks a capturing recorder to finish and does nothing to
      one that has already been asked. */
  function StopStep(m: RecorderModel): RecorderModel {
    if !m.phase.NoRecorder? && m.state.isRecording then
      (if m.phase.Capturing? then m.(phase := Stopping) else m)
    else m
  }

  /** `onstop`, which a running recorder fires after `stop()` or when its stream
      ends: the buffer becomes one blob tagged `audio/webm` with a new object URL,
      recording ends, and the stream's tracks are stopped. `error` is untouched. */
  function CompleteStep(m: RecorderModel): RecorderModel
    requires DeviceHeld(m)
  {
    var blob := Blob(Concat(m.chunks), BlobMimeType);
    var url := ObjectUrl(m.nextUrl);
    m.(state := m.state.(isRecording := false, audioBlob := Some(blob), audioUrl := Some(url)),
       phase := Finished,
       liveUrls := m.liveUrls + {url},
       nextUrl := m.nextUrl + 1)
  }

  /** `resetRecording`: revokes the current object URL, if any, and puts the state
      record back to its initial value. The buffer and the recorder are left alone. */
  function ResetStep(m: RecorderModel): RecorderModel {
    m.(state := InitialState,
       liveUrls := if m.state.audioUrl.Some? then m.liveUrls - {m.state.audioUrl.value} else m.liveUrls)
  }

  lemma StepsPreserveValid(m: RecorderModel, outcome: StartOutcome, chunk: Blob)
    requires ValidModel(m)
    ensures ValidModel(StartStep(m, outcome))
    ensures ValidModel(DataStep(m, chunk))
    ensures ValidModel(StopStep(m))
    ensures DeviceHeld(m) ==> ValidModel(CompleteStep(m))
    ensures ValidModel(ResetStep(m))
  {
  }

  /** A successful start clears the buffer and the record and starts holding the
      device; a failed one changes nothing but the error. */
  lemma StartEffects(m: RecorderModel)
    ensures StartStep(m, Granted).state == AudioRecorderState(true, None, None, None)
    ensures StartStep(m, Granted).chunks == [] && DeviceHeld(StartStep(m, Granted))
    ensures StartStep(m, Denied) == m.(state := m.state.(error := Some(MicrophoneError)))
    ensures HeldStreams(StartStep(m, Denied)) == HeldStreams(m)
    ensures HeldStreams(StartStep(m, RecorderRejected)) == HeldStreams(m) + 1
  {
  }

  /** `stopRecording` changes something only for a capturing recorder while the
      state says recording, and then it only marks the stop as requested. */
  lemma StopGuarded(m: RecorderModel)
    ensures StopStep(m) != m <==> m.state.isRecording && m.phase.Capturing?
    ensures StopStep(m) != m ==> StopStep(m) == m.(phase := Stopping) && DeviceHeld(StopStep(m))
  {
  }

  /** Completion releases the current stream and leaves a blob of the concatenated
      buffer whose size is the sum of the chunk sizes. */
  lemma CompleteEffects(m: RecorderModel)
    requires ValidModel(m) && DeviceHeld(m)
    ensures !DeviceHeld(CompleteStep(m)) && HeldStreams(CompleteStep(m)) == HeldStreams(m) - 1
    ensures CompleteStep(m).state.audioBlob == Some(Blob(Concat(m.chunks), BlobMimeType))
    ensures |CompleteStep(m).state.audioBlob.value.bytes| == TotalSize(m.chunks)
    ensures CompleteStep(m).state.audioUrl.Some? && CompleteStep(m).state.audioUrl.value !in m.liveUrls
    ensures !CompleteStep(m).state.isRecording && CompleteStep(m).state.error == m.state.error
  {
    ConcatSize(m.chunks);
  }

  /** Reset from any state gives the initial record with no live URL of its own, and
      doing it twice is doing it once. It does not touch the device. */
  lemma ResetIdempotent(m: RecorderModel)
    requires ValidModel(m)
    ensures ResetStep(m).state == InitialState
    ensures ResetStep(ResetStep(m)) == ResetStep(m)
    ensures m.state.audioUrl.Some? ==> m.state.audioUrl.value !in ResetStep(m).liveUrls
    ensures DeviceHeld(ResetStep(m)) == DeviceHeld(m)
  {
  }

  /** A restart that succeeds while an earlier recording's URL is set drops the URL
      from the record without revoking it. */
  lemma StartKeepsOldUrlAlive(m: RecorderModel)
    requires ValidModel(m) && m.state.audioUrl.Some?
    ensures m.state.audioUrl.value in StartStep(m, Granted).liveUrls
    ensures StartStep(m, Granted).state.audioUrl.None?
  {
  }

  /** The events the hook reacts to. */
  datatype Event = Start(outcome: StartOutcome) | Data(chunk: Blob) | Stop | Complete | Reset

  /** One event. The browser fires the completion callback only for a running
      recorder, so elsewhere it is no event at all. */
  function Apply(m: RecorderModel, e: Event): RecorderModel {
    match e
    case Start(o) => StartStep(m, o)
    case Data(c) => DataStep(m, c)
    case Stop => StopStep(m)
    case Complete => if DeviceHeld(m) then CompleteStep(m) else m
    case Reset => ResetStep(m)
  }

  function Run(m: RecorderModel, events: seq<Event>): RecorderModel
    decreases |events|
  {
    if events == [] then m else Run(Apply(m, events[0]), events[1..])
  }

  function Deliveries(chunks: seq<Blob>): (es: seq<Event>)
    ensures |es| == |chunks|
    ensures forall i | 0 <= i < |chunks| :: es[i] == Data(chunks[i])
  {
    if chunks == [] then [] else [Data(chunks[0])] + Deliveries(chunks[1..])
  }

  lemma {:induction false} RunAppend(m: RecorderModel, a: seq<Event>, b: seq<Event>)
    ensures Run(m, a + b) == Run(Run(m, a), b)
    decreases |a|
  {
    if a == [] {
      assert a + b == b;
    } else {
      assert (a + b)[0] == a[0] && (a + b)[1..] == a[1..] + b;
      RunAppend(Apply(m, a[0]), a[1..], b);
    }
  }

  /** Every sequence of events keeps the invariant. */
  lemma {:induction false} RunPreservesValid(m: RecorderModel, events: seq<Event>)
    requires ValidModel(m)
    ensures ValidModel(Run(m, events))
    decreases |events|
  {
    if events != [] {
      var c := if events[0].Data? then events[0].chunk else Blob([], "");
      var o := if events[0].Start? then events[0].outcome else Denied;
      StepsPreserveValid(m, o, c);
      RunPreservesValid(Apply(m, events[0]), events[1..]);
    }
  }

  /** Delivering chunks appends the non-empty ones, in arrival order, and changes
      nothing else. */
  lemma {:induction false} DeliveriesAppendInOrder(m: RecorderModel, chunks: seq<Blob>)
    ensures Run(m, Deliveries(chunks)) == m.(chunks := m.chunks + NonEmpty(chunks))
    decreases |chunks|
  {
    if chunks == [] {
      assert m.chunks + [] == m.chunks;
    } else {
      var d := Deliveries(chunks);
      assert d[0] == Data(chunks[0]) && d[1..] == Deliveries(chunks[1..]);
      var m1 := DataStep(m, chunks[0]);
      assert Run(m, d) == Run(m1, Deliveries(chunks[1..]));
      DeliveriesAppendInOrder(m1, chunks[1..]);
      var head := if |chunks[0].bytes| > 0 then [chunks[0]] else [];
      assert m1 == m.(chunks := m.chunks + head);
      assert NonEmpty(chunks) == head + NonEmpty(chunks[1..]);
      assert m.chunks + head + NonEmpty(chunks[1..]) == m.chunks + NonEmpty(chunks);
    }
  }

  /** Once the device is released, it stays released until a start succeeds. */
  lemma {:induction false} ReleasedUntilNextGrant(m: RecorderModel, events: seq<Event>)
    requires !DeviceHeld(m)
    requires forall i | 0 <= i < |events| :: events[i] != Start(Granted)
    ensures !DeviceHeld(Run(m, events))
    decreases |events|
  {
    if events != [] {
      ReleasedUntilNextGrant(Apply(m, events[0]), events[1..]);
    }
  }

  /** A whole session: a successful start, the chunks, a stop and its completion
      leave a captured blob of exactly the non-empty chunks' bytes in order, the
      device released, and no error. */
  lemma {:induction false} SessionCapturesChunks(m: RecorderModel, chunks: seq<Blob>)
    requires ValidModel(m)
    ensures var r := Run(m, [Start(Granted)] + Deliveries(chunks) + [Stop, Complete]);
            && r.state.audioBlob == Some(Blob(Concat(chunks), BlobMimeType))
            && |r.state.audioBlob.value.bytes| == TotalSize(chunks)
            && r.state.audioUrl.Some? && r.state.audioUrl.value in r.liveUrls
            && !r.state.isRecording && r.state.error.None?
            && !DeviceHeld(r) && r.strandedStreams == HeldStreams(m) - (if m.phase.Stopping? then 1 else 0)
  {
    var s0 := StartStep(m, Granted);
    assert Run(m, [Start(Granted)]) == s0;
    RunAppend(m, [Start(Granted)], Deliveries(chunks));
    DeliveriesAppendInOrder(s0, chunks);
    var s1 := s0.(chunks := NonEmpty(chunks));
    assert Run(m, [Start(Granted)] + Deliveries(chunks)) == s1;
    RunAppend(m, [Start(Granted)] + Deliveries(chunks), [Stop, Complete]);
    var s2 := StopStep(s1);
    assert s2 == s1.(phase := Stopping);
    assert Run(s1, [Stop, Complete]) == CompleteStep(s2);
    NonEmptyKeepsBytes(chunks);
    ConcatSize(chunks);
  }

  /** Three chunks of 10, 10 and 5 bytes make a 25-byte blob. */
  lemma ThreeChunkScenario(a: seq<byte>, b: seq<byte>, c: seq<byte>)
    requires |a| == 10 && |b| == 10 && |c| == 5
    ensures var r := Run(InitialModel, [Start(Granted), Data(Blob(a, "audio/webm")), Data(Blob(b, "audio/webm")),
                                        Data(Blob(c, "audio/webm")), Stop, Complete]);
            r.state.audioBlob.Some? && |r.state.audioBlob.value.bytes| == 25 && !r.state.isRecording
  {
    var cs := [Blob(a, "audio/webm"), Blob(b, "audio/webm"), Blob(c, "audio/webm")];
    assert Deliveries(cs) == [Data(cs[0]), Data(cs[1]), Data(cs[2])];
    assert [Start(Granted)] + Deliveries(cs) + [Stop, Complete] ==
           [Start(Granted), Data(cs[0]), Data(cs[1]), Data(cs[2]), Stop, Complete];
    SessionCapturesChunks(InitialModel, cs);
    assert cs[1..][1..][1..] == [];
    assert TotalSize(cs[1..][1..]) == 5;
  }

  /** The hook's state: the record, the buffer, and the current recorder. */
  class AudioRecorder {
    var state: AudioRecorderState
    var chunks: seq<Blob>
    var phase: Phase
    var strandedStreams: nat
    var liveUrls: set<ObjectUrl>
    var nextUrl: nat

    function Model(): RecorderModel
      reads this
    {
      RecorderModel(state, chunks, phase, strandedStreams, liveUrls, nextUrl)
    }

    predicate Valid()
      reads this
    {
      ValidModel(Model())
    }

    constructor ()
      ensures Valid() && Model() == InitialModel
    {
      state := InitialState;
      chunks := [];
      phase := NoRecorder;
      strandedStreams := 0;
      liveUrls := {};
      nextUrl := 0;
    }

    method StartRecording(outcome: StartOutcome)
      requires Valid()
      modifies this
      ensures Valid() && Model() == StartStep(old(Model()), outcome)
    {
      StepsPreserveValid(Model(), outcome, Blob([], ""));
      match outcome {
        case Denied =>
          state := state.(error := Some(MicrophoneError));
        case RecorderRejected =>
          strandedStreams := strandedStreams + 1;
          state := state.(error := Some(MicrophoneError));
        case Granted =>
          if phase.Capturing? {
            strandedStreams := strandedStreams + 1;
          }
          phase := Capturing;
          chunks := [];
          state := state.(isRecording := true, error := None, audioBlob := None, audioUrl := None);
      }
    }

    method OnDataAvailable(chunk: Blob)
      requires Valid()
      modifies this
      ensures Valid() && Model() == DataStep(old(Model()), chunk)
    {
      if |chunk.bytes| > 0 {
        chunks := chunks + [chunk];
      }
    }

    method StopRecording()
      requires Valid()
      modifies this
      ensures Valid() && Model() == StopStep(old(Model()))
    {
      if !phase.NoRecorder? && state.isRecording {
        if phase.Capturing? {
          phase := Stopping;
        }
      }
    }

    method OnStop()
      requires Valid() && DeviceHeld(Model())
      modifies this
      ensures Valid() && Model() == CompleteStep(old(Model()))
    {
      var blob := Blob(Concat(chunks), BlobMimeType);
      var url := ObjectUrl(nextUrl);
      liveUrls := liveUrls + {url};
      nextUrl := nextUrl + 1;
      state := state.(isRecording := false, audioBlob := Some(blob), audioUrl := Some(url));
      phase := Finished;
    }

    method ResetRecording()
      requires Valid()
      modifies this
      ensures Valid() && Model() == ResetStep(old(Model()))
    {
      if state.audioUrl.Some? {
        liveUrls := liveUrls - {state.audioUrl.value};
      }
      state := InitialState;
    }
  }
}

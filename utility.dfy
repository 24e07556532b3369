/**
 * The small state machines shared by the application: the latest-frame slot of a camera capture,
 * the event dispatcher, and the audio worker that paces sound chunks into an output sink.
 */
module Utility {
  import opened Wrappers
  import opened Common
  import opened Lists

  // ---------------------------------------------------------------------------------------------
  // Latest-frame capture
  // ---------------------------------------------------------------------------------------------

  /** A frame the decoder yields: a picture, or sound that the resampler has cut into byte chunks. */
  datatype MediaFrame = VideoFrame(image: Image) | AudioFrame(resampled: seq<seq<byte>>)

  /** What a capture has done so far: its one-frame slot and the calls made into its callbacks. */
  datatype CaptureState = CaptureState(slot: Option<Image>, framesNotified: seq<Image>, audioNotified: seq<seq<byte>>)

  /** The effect of `_process_frame` on the capture state. */
  function AfterFrame(s: CaptureState, frame: MediaFrame, hasOnFrame: bool, hasOnAudioBytes: bool): CaptureState {
    match frame
    case VideoFrame(image) =>
      CaptureState(Some(image), s.framesNotified + (if hasOnFrame then [image] else []), s.audioNotified)
    case AudioFrame(chunks) =>
      CaptureState(s.slot, s.framesNotified, s.audioNotified + (if hasOnAudioBytes then chunks else []))
  }

  /** The effect of processing frames one after another. */
  function AfterFrames(s: CaptureState, frames: seq<MediaFrame>, hasOnFrame: bool, hasOnAudioBytes: bool): CaptureState {
    if frames == [] then s
    else AfterFrame(AfterFrames(s, frames[..|frames| - 1], hasOnFrame, hasOnAudioBytes), frames[|frames| - 1], hasOnFrame, hasOnAudioBytes)
  }

  /** The last picture among the frames, if any. */
  function LastVideo(frames: seq<MediaFrame>): (r: Option<Image>)
    ensures r.Some? ==> exists i :: 0 <= i < |frames| && frames[i] == VideoFrame(r.value)
                                     && forall j :: i < j < |frames| ==> frames[j].AudioFrame?
    ensures r.None? ==> forall i :: 0 <= i < |frames| ==> frames[i].AudioFrame?
  {
    if frames == [] then None
    else if frames[|frames| - 1].VideoFrame? then
      assert frames[|frames| - 1] == VideoFrame(frames[|frames| - 1].image);
      Some(frames[|frames| - 1].image)
    else
      var r := LastVideo(frames[..|frames| - 1]);
      assert forall i :: 0 <= i < |frames| - 1 ==> frames[i] == frames[..|frames| - 1][i];
      r
  }

  /**
   * After a stream of frames the slot holds the latest picture of the stream, older pictures are
   * gone, and sound never touches the slot.
   */
  lemma {:induction false} AfterFramesKeepsLatest(s: CaptureState, frames: seq<MediaFrame>, hasOnFrame: bool, hasOnAudioBytes: bool)
    ensures AfterFrames(s, frames, hasOnFrame, hasOnAudioBytes).slot
            == (if LastVideo(frames).Some? then LastVideo(frames) else s.slot)
  {
    if frames != [] {
      AfterFramesKeepsLatest(s, frames[..|frames| - 1], hasOnFrame, hasOnAudioBytes);
    }
  }

  /** `LastFrameVideoCapture`: the decoding thread fills a capacity-1 queue that readers drain. */
  class LastFrameVideoCapture {
    /** The capacity-1 frame queue. */
    var slot: Option<Image>
    const hasOnFrame: bool
    const hasOnAudioBytes: bool
    /** The pictures passed to `on_frame`, in order. */
    var framesNotified: seq<Image>
    /** The byte chunks passed to `on_audio_bytes`, in order. */
    var audioNotified: seq<seq<byte>>
    var shutdownPending: bool

    function State(): CaptureState
      reads this
    {
      CaptureState(slot, framesNotified, audioNotified)
    }

    constructor (hasOnFrame: bool, hasOnAudioBytes: bool)
      ensures State() == CaptureState(None, [], []) && !shutdownPending
      ensures this.hasOnFrame == hasOnFrame && this.hasOnAudioBytes == hasOnAudioBytes
    {
      this.hasOnFrame := hasOnFrame;
      this.hasOnAudioBytes := hasOnAudioBytes;
      slot := None;
      framesNotified := [];
      audioNotified := [];
      shutdownPending := false;
    }

    /** `_update_latest_frame`: discard whatever frame is waiting, then store the new one. */
    method UpdateLatestFrame(frame: Image)
      modifies this
      ensures slot == Some(frame)
      ensures framesNotified == old(framesNotified) && audioNotified == old(audioNotified)
      ensures shutdownPending == old(shutdownPending)
    {
      if slot.Some? {
        slot := None;
      }
      slot := Some(frame);
    }

    /**
     * `get_latest_frame`: take the waiting frame out of the slot, or None when nothing arrived
     * since the last read.
     */
    method GetLatestFrame() returns (frame: Option<Image>)
      modifies this
      ensures frame == old(slot) && slot == None
      ensures framesNotified == old(framesNotified) && audioNotified == old(audioNotified)
      ensures shutdownPending == old(shutdownPending)
    {
      frame := slot;
      slot := None;
    }

    /**
     * `_process_frame`: a picture goes to `on_frame` when it is set and then into the slot; sound
     * goes, chunk by chunk, to `on_audio_bytes` when that is set.
     */
    method ProcessFrame(frame: MediaFrame)
      modifies this
      ensures State() == AfterFrame(old(State()), frame, hasOnFrame, hasOnAudioBytes)
      ensures frame.AudioFrame? ==> slot == old(slot)
      ensures shutdownPending == old(shutdownPending)
    {
      match frame
      case VideoFrame(image) =>
        if hasOnFrame {
          framesNotified := framesNotified + [image];
        }
        UpdateLatestFrame(image);
      case AudioFrame(chunks) =>
        if hasOnAudioBytes {
          var i := 0;
          while i < |chunks|
            invariant 0 <= i <= |chunks|
            invariant audioNotified == old(audioNotified) + chunks[..i]
            invariant slot == old(slot) && framesNotified == old(framesNotified)
            invariant shutdownPending == old(shutdownPending)
          {
            audioNotified := audioNotified + [chunks[i]];
            assert chunks[..i + 1] == chunks[..i] + [chunks[i]];
            i := i + 1;
          }
          assert chunks[..|chunks|] == chunks;
        }
    }

    /**
     * The inner loop of `_frame_pulling_process` over one opened container: before each frame it
     * checks for a pending shutdown and stops. `shutdownBefore[i]` says whether a shutdown is
     * pending when frame `i` comes up.
     */
    method PullFrames(frames: seq<MediaFrame>, shutdownBefore: seq<bool>) returns (processed: nat)
      requires |shutdownBefore| == |frames|
      modifies this
      ensures processed <= |frames|
      ensures forall i :: 0 <= i < processed ==> !shutdownBefore[i]
      ensures processed < |frames| ==> shutdownBefore[processed]
      ensures State() == AfterFrames(old(State()), frames[..processed], hasOnFrame, hasOnAudioBytes)
    {
      processed := 0;
      while processed < |frames|
        invariant processed <= |frames|
        invariant forall i :: 0 <= i < processed ==> !shutdownBefore[i]
        invariant State() == AfterFrames(old(State()), frames[..processed], hasOnFrame, hasOnAudioBytes)
      {
        if shutdownBefore[processed] {
          return;
        }
        ProcessFrame(frames[processed]);
        assert frames[..processed + 1][..processed] == frames[..processed];
        processed := processed + 1;
      }
    }

    /** `shut_down`: ask the decoding thread to stop (the join is not modelled). */
    method ShutDown()
      modifies this
      ensures shutdownPending && State() == old(State())
    {
      shutdownPending := true;
    }
  }

  // ---------------------------------------------------------------------------------------------
  // Event dispatcher
  // ---------------------------------------------------------------------------------------------

  /** A listener, named by the callback it stands for. */
  type ListenerId = string

  /** One call of a listener with an event. */
  datatype Call<E> = Call(listener: ListenerId, event: E)

  /** The calls `fire` makes: every listener, in list order, with the same event. */
  function CallsFor<E>(listeners: seq<ListenerId>, event: E): (calls: seq<Call<E>>)
    ensures |calls| == |listeners|
    ensures forall i :: 0 <= i < |listeners| ==> calls[i] == Call(listeners[i], event)
  {
    if listeners == [] then []
    else
      var front := CallsFor(listeners[..|listeners| - 1], event);
      assert forall i :: 0 <= i < |listeners| - 1 ==> listeners[..|listeners| - 1][i] == listeners[i];
      front + [Call(listeners[|listeners| - 1], event)]
  }

  /**
   * `EventDispatcher`. The listener list does not exist until the first `register` (the class only
   * annotates it), so `fire` and `forget` raise AttributeError before that.
   */
  class EventDispatcher<E> {
    var listeners: Option<seq<ListenerId>>
    /** Every listener call made so far, in order. */
    var calls: seq<Call<E>>

    constructor ()
      ensures listeners == None && calls == []
    {
      listeners := None;
      calls := [];
    }

    /** `register`: the new listener replaces all earlier ones. */
    method Register(listener: ListenerId)
      modifies this
      ensures listeners == Some([listener]) && calls == old(calls)
    {
      listeners := Some([listener]);
    }

    /** `forget`: `list.remove` of the listener. */
    method Forget(listener: ListenerId) returns (outcome: Outcome)
      modifies this
      ensures calls == old(calls)
      ensures old(listeners).None? ==> outcome == Fail(AttributeError) && listeners == old(listeners)
      ensures old(listeners).Some? && RemoveFirst(old(listeners).value, listener).Err? ==>
                outcome == Fail(RemoveFirst(old(listeners).value, listener).error) && listeners == old(listeners)
      ensures old(listeners).Some? && RemoveFirst(old(listeners).value, listener).Ok? ==>
                outcome == Pass && listeners == Some(RemoveFirst(old(listeners).value, listener).value)
    {
      if listeners.None? {
        return Fail(AttributeError);
      }
      var removed := RemoveFirst(listeners.value, listener);
      if removed.Err? {
        return Fail(removed.error);
      }
      listeners := Some(removed.value);
      outcome := Pass;
    }

    /** `fire`: call every listener in list order with the event. */
    method Fire(event: E) returns (outcome: Outcome)
      modifies this
      ensures listeners == old(listeners)
      ensures old(listeners).None? ==> outcome == Fail(AttributeError) && calls == old(calls)
      ensures old(listeners).Some? ==> outcome == Pass && calls == old(calls) + CallsFor(old(listeners).value, event)
    {
      if listeners.None? {
        return Fail(AttributeError);
      }
      var ls := listeners.value;
      var i := 0;
      while i < |ls|
        invariant 0 <= i <= |ls|
        invariant listeners == old(listeners)
        invariant calls == old(calls) + CallsFor(ls[..i], event)
      {
        calls := calls + [Call(ls[i], event)];
        assert ls[..i + 1][..i] == ls[..i];
        i := i + 1;
      }
      assert ls[..|ls|] == ls;
      outcome := Pass;
    }
  }

  // ---------------------------------------------------------------------------------------------
  // Audio stream player
  // ---------------------------------------------------------------------------------------------

  /** What the audio worker's queue carries. */
  datatype AudioMessage = SoundChunk(data: seq<byte>) | VolumeUpdate(volume: real)

  /** What the worker does to its output sink, in order. */
  datatype SinkEvent = VolumeSet(volume: real) | BufferSized(durationUs: int) | Accepted(piece: seq<byte>)

  const DefaultTargetDelayUs: int := 200000
  const DefaultDelayToleranceUs: int := 100000

  /** The sink buffer holds the target delay plus three tolerances (given as a duration). */
  function SinkBufferDurationUs(targetDelayUs: int, delayToleranceUs: int): (d: int)
    ensures d - targetDelayUs == 3 * delayToleranceUs
    ensures delayToleranceUs >= 0 ==> d >= targetDelayUs + delayToleranceUs
  {
    targetDelayUs + 3 * delayToleranceUs
  }

  lemma DefaultSinkBufferDuration()
    ensures SinkBufferDurationUs(DefaultTargetDelayUs, DefaultDelayToleranceUs) == 500000
  {
  }

  /** The three bands of the worker's pacing rule on the sink's buffered microseconds. */
  datatype Pacing = SkipAboveBand | WriteBelowBand | WriteInBand

  function Pace(usecsBuffered: int, targetDelayUs: int, delayToleranceUs: int): (p: Pacing)
    ensures p != SkipAboveBand <==> usecsBuffered <= targetDelayUs + delayToleranceUs
    ensures p == WriteBelowBand <==> usecsBuffered < targetDelayUs - delayToleranceUs && p != SkipAboveBand
  {
    if usecsBuffered > targetDelayUs + delayToleranceUs then SkipAboveBand
    else if usecsBuffered < targetDelayUs - delayToleranceUs then WriteBelowBand
    else WriteInBand
  }

  function Min(a: int, b: int): int {
    if a <= b then a else b
  }

  /** Python's `s[start:]`, where a negative start counts from the end. */
  function SliceFrom<T>(s: seq<T>, start: int): (r: seq<T>)
    ensures |r| <= |s| && r == s[|s| - |r|..]
    ensures start >= 0 ==> |r| == |s| - Min(start, |s|)
    ensures start < 0 ==> |r| == Min(-start, |s|)
  {
    if start >= 0 then s[Min(start, |s|)..]
    else if -start >= |s| then s
    else s[|s| + start..]
  }

  /**
   * The drain loop of `_write_data` as evidently intended: the device answers each write with the
   * number of bytes it took (a positive count) or with 0 or -1 when it took nothing; the loop
   * retries until every byte is taken. `responses` are the device's answers in order. The result
   * is the pieces taken, in order, and the bytes still unsent when the answers run out.
   */
  function Drain(data: seq<byte>, responses: seq<int>): (r: (seq<seq<byte>>, seq<byte>))
    ensures |r.0| <= |responses| && forall k :: 0 <= k < |r.0| ==> r.0[k] != []
    ensures |r.1| <= |data|
    decreases |responses|
  {
    if data == [] || responses == [] then ([], data)
    else if responses[0] <= 0 then Drain(data, responses[1..])
    else
      var n := Min(responses[0], |data|);
      var rest := Drain(data[n..], responses[1..]);
      ([data[..n]] + rest.0, rest.1)
  }

  /** The pieces the device took, followed by the unsent bytes, are the data, in order. */
  lemma {:induction false} DrainConservesData(data: seq<byte>, responses: seq<int>)
    ensures Flatten(Drain(data, responses).0) + Drain(data, responses).1 == data
    decreases |responses|
  {
    if data == [] || responses == [] {
    } else if responses[0] <= 0 {
      DrainConservesData(data, responses[1..]);
    } else {
      var n := Min(responses[0], |data|);
      DrainConservesData(data[n..], responses[1..]);
      DrainConservesPiece(data, responses, n);
    }
  }

  /** One positive answer: the piece taken, followed by what the rest of the loop conserves, is the data. */
  lemma DrainConservesPiece(data: seq<byte>, responses: seq<int>, n: nat)
    requires data != [] && responses != [] && responses[0] > 0 && n == Min(responses[0], |data|)
    requires Flatten(Drain(data[n..], responses[1..]).0) + Drain(data[n..], responses[1..]).1 == data[n..]
    ensures Flatten(Drain(data, responses).0) + Drain(data, responses).1 == data
  {
    var piece, remainder := data[..n], data[n..];
    var rest := Drain(remainder, responses[1..]);
    DrainTakes(data, responses, n);
    assert data == piece + remainder;
    ConservedByPiece(Drain(data, responses).0, rest.1, piece, rest.0, remainder, data);
  }

  /** Pieces made of one piece and pieces that, with the unsent bytes, make up the rest. */
  lemma ConservedByPiece<T>(
    pieces: seq<seq<T>>, unsent: seq<T>, piece: seq<T>, restPieces: seq<seq<T>>, rest: seq<T>, whole: seq<T>)
    requires pieces == [piece] + restPieces && Flatten(restPieces) + unsent == rest && whole == piece + rest
    ensures Flatten(pieces) + unsent == whole
  {
    FlattenCons(piece, restPieces);
    JoinPieces(piece, Flatten(restPieces), unsent, rest, whole);
  }

  /** A positive answer takes its piece off the front; the later answers drain the rest. */
  lemma DrainTakes(data: seq<byte>, responses: seq<int>, n: nat)
    requires data != [] && responses != [] && responses[0] > 0 && n == Min(responses[0], |data|)
    ensures Drain(data, responses) == ([data[..n]] + Drain(data[n..], responses[1..]).0, Drain(data[n..], responses[1..]).1)
  {
  }

  /** A piece followed by pieces that make up the rest makes up the whole. */
  lemma JoinPieces<T>(piece: seq<T>, taken: seq<T>, unsent: seq<T>, rest: seq<T>, whole: seq<T>)
    requires taken + unsent == rest && whole == piece + rest
    ensures (piece + taken) + unsent == whole
  {
  }

  /** Once the loop ends with nothing unsent, the device took every byte, in order. */
  lemma DrainCompleteDeliversAll(data: seq<byte>, responses: seq<int>)
    requires Drain(data, responses).1 == []
    ensures Flatten(Drain(data, responses).0) == data
  {
    DrainConservesData(data, responses);
  }

  /**
   * The drain loop of `_write_data` as written: any non-zero answer, -1 included, is used as the
   * slice start `data[written:]`. Result: the bytes the device actually took, and what is left.
   */
  function DrainAsWritten(data: seq<byte>, responses: seq<int>): (r: (seq<byte>, seq<byte>))
    ensures |r.0| + |r.1| <= |data|
    decreases |responses|
  {
    if data == [] || responses == [] then ([], data)
    else if responses[0] == 0 then DrainAsWritten(data, responses[1..])
    else
      var taken := if responses[0] > 0 then data[..Min(responses[0], |data|)] else [];
      var rest := DrainAsWritten(SliceFrom(data, responses[0]), responses[1..]);
      (taken + rest.0, rest.1)
  }

  /**
   * A device error (-1) on the first write of three bytes makes the loop keep only the last byte:
   * the loop then ends as if all were written, but the device took only that last byte. The
   * intended loop keeps the two bytes it still owes.
   */
  lemma DrainAsWrittenDropsBytesOnError()
    ensures DrainAsWritten([1, 2, 3], [-1, 1]) == ([3], [])
    ensures Drain([1, 2, 3], [-1, 1]) == ([[1]], [2, 3])
  {
    var data: seq<byte> := [1, 2, 3];
    var none: seq<byte> := [];
    var tail: seq<byte> := [3];
    var rest: seq<byte> := [2, 3];
    var errorThenOne: seq<int> := [-1, 1];
    var one: seq<int> := [1];
    assert errorThenOne[1..] == one && one[1..] == [];
    assert SliceFrom(data, -1) == tail;
    assert SliceFrom(tail, 1) == none;
    assert DrainAsWritten(none, []) == ([], []);
    assert tail[..Min(one[0], |tail|)] == tail;
    assert DrainAsWritten(tail, one) == (tail + DrainAsWritten(none, []).0, DrainAsWritten(none, []).1);
    assert tail + none == tail && none + tail == tail;
    assert DrainAsWritten(tail, one) == (tail, []);
    assert DrainAsWritten(data, errorThenOne) == ([] + DrainAsWritten(tail, one).0, DrainAsWritten(tail, one).1);
    assert data[..1] == [1] && data[1..] == rest;
    assert Drain(data, errorThenOne) == Drain(data, one);
    assert Drain(rest, []) == ([], rest);
    assert Drain(data, one) == ([[1]] + [], rest);
    assert [[1]] + [] == [[1 as byte]];
  }

  /**
   * The drain so far: the whole drain is the pieces already taken, followed by the drain of the
   * rest of the data over the answers from `i` on.
   */
  ghost predicate DrainedSoFar(data: seq<byte>, responses: seq<int>, pieces: seq<seq<byte>>, rest: seq<byte>, i: nat)
    requires i <= |responses|
  {
    Drain(data, responses) == (pieces + Drain(rest, responses[i..]).0, Drain(rest, responses[i..]).1)
  }

  lemma DrainedStart(data: seq<byte>, responses: seq<int>)
    ensures DrainedSoFar(data, responses, [], data, 0)
  {
    assert responses[0..] == responses;
    assert [] + Drain(data, responses).0 == Drain(data, responses).0;
  }

  /** One more answer: a positive one takes the next piece off the rest; any other takes nothing. */
  lemma DrainedNext(data: seq<byte>, responses: seq<int>, pieces: seq<seq<byte>>, rest: seq<byte>, i: nat)
    requires i < |responses| && rest != [] && DrainedSoFar(data, responses, pieces, rest, i)
    ensures responses[i] > 0 ==>
              var n := Min(responses[i], |rest|);
              DrainedSoFar(data, responses, pieces + [rest[..n]], rest[n..], i + 1)
    ensures responses[i] <= 0 ==> DrainedSoFar(data, responses, pieces, rest, i + 1)
  {
    assert responses[i..][1..] == responses[i + 1..];
    if responses[i] > 0 {
      var n := Min(responses[i], |rest|);
      var later := Drain(rest[n..], responses[i + 1..]);
      assert Drain(rest, responses[i..]) == ([rest[..n]] + later.0, later.1);
      assert pieces + ([rest[..n]] + later.0) == (pieces + [rest[..n]]) + later.0;
    }
  }

  lemma DrainedEnd(data: seq<byte>, responses: seq<int>, pieces: seq<seq<byte>>, rest: seq<byte>, i: nat)
    requires i <= |responses| && (rest == [] || i == |responses|) && DrainedSoFar(data, responses, pieces, rest, i)
    ensures Drain(data, responses) == (pieces, rest)
  {
    assert Drain(rest, responses[i..]) == ([], rest);
    assert pieces + [] == pieces;
  }

  /** The sink events for pieces the device took. */
  function AcceptedEvents(pieces: seq<seq<byte>>): (events: seq<SinkEvent>)
    ensures |events| == |pieces| && forall k :: 0 <= k < |pieces| ==> events[k] == Accepted(pieces[k])
  {
    if pieces == [] then [] else AcceptedEvents(pieces[..|pieces| - 1]) + [Accepted(pieces[|pieces| - 1])]
  }

  /** One piece more adds its event at the end. */
  lemma AcceptedEventsNext(pieces: seq<seq<byte>>, piece: seq<byte>)
    ensures AcceptedEvents(pieces + [piece]) == AcceptedEvents(pieces) + [Accepted(piece)]
  {
    assert (pieces + [piece])[..|pieces|] == pieces;
  }

  /**
   * What handling one queue message does to the sink: a volume update sets the volume and nothing
   * else; a chunk never sets the volume, and it leaves no trace exactly when it is skipped or the
   * device takes none of it.
   */
  function Dispatch(message: AudioMessage, usecsBuffered: int, targetDelayUs: int, delayToleranceUs: int, responses: seq<int>)
    : (events: seq<SinkEvent>)
    ensures message.VolumeUpdate? ==> events == [VolumeSet(message.volume)] && VolumesSet(events) == [message.volume]
    ensures message.SoundChunk? ==> VolumesSet(events) == []
    ensures message.SoundChunk? && Pace(usecsBuffered, targetDelayUs, delayToleranceUs) != SkipAboveBand ==>
              events == AcceptedEvents(Drain(message.data, responses).0)
    ensures message.SoundChunk? ==>
              (events == [] <==> Pace(usecsBuffered, targetDelayUs, delayToleranceUs) == SkipAboveBand
                                 || Drain(message.data, responses).0 == [])
  {
    match message
    case VolumeUpdate(v) =>
      assert VolumesSet([VolumeSet(v)]) == VolumesSet([]) + [v];
      [VolumeSet(v)]
    case SoundChunk(data) =>
      if Pace(usecsBuffered, targetDelayUs, delayToleranceUs) == SkipAboveBand then []
      else
        AcceptedEventsSetNoVolume(Drain(data, responses).0);
        AcceptedEvents(Drain(data, responses).0)
  }

  /** How the worker observes the sink when it handles one message. */
  datatype Observation = Observation(usecsBuffered: int, responses: seq<int>)

  /**
   * The sink events for a queue handled message by message. Volume updates reach the sink
   * exactly, and in queue order, however chunks are paced.
   */
  function Playback(messages: seq<AudioMessage>, observed: seq<Observation>, targetDelayUs: int, delayToleranceUs: int)
    : (events: seq<SinkEvent>)
    requires |observed| == |messages|
    ensures VolumesSet(events) == VolumeUpdates(messages)
  {
    if messages == [] then []
    else
      var n := |messages| - 1;
      var front := Playback(messages[..n], observed[..n], targetDelayUs, delayToleranceUs);
      var last := Dispatch(messages[n], observed[n].usecsBuffered, targetDelayUs, delayToleranceUs, observed[n].responses);
      VolumesSetAppend(front, last);
      front + last
  }

  /** The volumes of the volume updates among the messages, in order. */
  function VolumeUpdates(messages: seq<AudioMessage>): seq<real> {
    if messages == [] then []
    else VolumeUpdates(messages[..|messages| - 1])
         + (if messages[|messages| - 1].VolumeUpdate? then [messages[|messages| - 1].volume] else [])
  }

  /** The volumes the sink is set to, in order. */
  function VolumesSet(events: seq<SinkEvent>): seq<real> {
    if events == [] then []
    else VolumesSet(events[..|events| - 1])
         + (if events[|events| - 1].VolumeSet? then [events[|events| - 1].volume] else [])
  }

  lemma {:induction false} VolumesSetAppend(a: seq<SinkEvent>, b: seq<SinkEvent>)
    ensures VolumesSet(a + b) == VolumesSet(a) + VolumesSet(b)
    decreases |b|
  {
    if b == [] {
      assert a + b == a;
    } else {
      assert (a + b)[..|a + b| - 1] == a + b[..|b| - 1];
      VolumesSetAppend(a, b[..|b| - 1]);
    }
  }

  lemma {:induction false} AcceptedEventsSetNoVolume(pieces: seq<seq<byte>>)
    ensures VolumesSet(AcceptedEvents(pieces)) == []
  {
    if pieces != [] {
      AcceptedEventsSetNoVolume(pieces[..|pieces| - 1]);
      VolumesSetAppend(AcceptedEvents(pieces[..|pieces| - 1]), [Accepted(pieces[|pieces| - 1])]);
    }
  }

  /** The bytes the sink accepted over a run of events, in order. */
  function BytesAccepted(events: seq<SinkEvent>): seq<byte> {
    if events == [] then []
    else BytesAccepted(events[..|events| - 1])
         + (if events[|events| - 1].Accepted? then events[|events| - 1].piece else [])
  }

  /** The accepted-piece events carry exactly the pieces, in order. */
  lemma {:induction false} BytesAcceptedOfPieces(pieces: seq<seq<byte>>)
    ensures BytesAccepted(AcceptedEvents(pieces)) == Flatten(pieces)
  {
    if pieces != [] {
      var n := |pieces| - 1;
      BytesAcceptedOfPieces(pieces[..n]);
      var events := AcceptedEvents(pieces);
      assert events[..n] == AcceptedEvents(pieces[..n]);
    }
  }

  /**
   * A chunk handled above the band leaves no trace on the sink; at or below it, the sink receives
   * the chunk's bytes, in order, once the device has taken them all.
   */
  lemma ChunkWrittenIffInBand(data: seq<byte>, usecsBuffered: int, targetDelayUs: int, delayToleranceUs: int, responses: seq<int>)
    requires data != [] && Drain(data, responses).1 == []
    ensures Dispatch(SoundChunk(data), usecsBuffered, targetDelayUs, delayToleranceUs, responses) != []
            <==> usecsBuffered <= targetDelayUs + delayToleranceUs
    ensures usecsBuffered <= targetDelayUs + delayToleranceUs ==> Flatten(Drain(data, responses).0) == data
    ensures usecsBuffered <= targetDelayUs + delayToleranceUs ==>
              BytesAccepted(Dispatch(SoundChunk(data), usecsBuffered, targetDelayUs, delayToleranceUs, responses)) == data
  {
    DrainCompleteDeliversAll(data, responses);
    BytesAcceptedOfPieces(Drain(data, responses).0);
  }

  /** `_AudioStreamPlayerWorker`: a queue of messages drained into an output sink. */
  class AudioStreamPlayerWorker {
    var queue: seq<AudioMessage>
    var shutdownPending: bool
    const targetDelayUs: int
    const delayToleranceUs: int
    /** Everything done to the output sink so far, in order. */
    var sink: seq<SinkEvent>

    constructor (targetDelayUs: int, delayToleranceUs: int)
      ensures this.targetDelayUs == targetDelayUs && this.delayToleranceUs == delayToleranceUs
      ensures queue == [] && !shutdownPending && sink == []
    {
      this.targetDelayUs := targetDelayUs;
      this.delayToleranceUs := delayToleranceUs;
      queue := [];
      shutdownPending := false;
      sink := [];
    }

    /** `push`: queue a sound chunk. */
    method Push(chunk: seq<byte>)
      modifies this
      ensures queue == old(queue) + [SoundChunk(chunk)]
      ensures sink == old(sink) && shutdownPending == old(shutdownPending)
    {
      queue := queue + [SoundChunk(chunk)];
    }

    /** `set_volume`: queue a volume change, so that it reaches the sink in order with the chunks. */
    method SetVolume(volume: real)
      modifies this
      ensures queue == old(queue) + [VolumeUpdate(volume)]
      ensures sink == old(sink) && shutdownPending == old(shutdownPending)
    {
      queue := queue + [VolumeUpdate(volume)];
    }

    method Shutdown()
      modifies this
      ensures shutdownPending && queue == old(queue) && sink == old(sink)
    {
      shutdownPending := true;
    }

    /** The start of `run`: the sink starts muted and its buffer is sized. */
    method StartSink()
      modifies this
      ensures sink == old(sink) + [VolumeSet(0.0), BufferSized(SinkBufferDurationUs(targetDelayUs, delayToleranceUs))]
      ensures queue == old(queue) && shutdownPending == old(shutdownPending)
    {
      sink := sink + [VolumeSet(0.0), BufferSized(SinkBufferDurationUs(targetDelayUs, delayToleranceUs))];
    }

    /** `_write_data` (as intended): offer the rest of the data until the device has taken it all. */
    method WriteData(data: seq<byte>, responses: seq<int>) returns (unsent: seq<byte>)
      modifies this
      ensures sink == old(sink) + AcceptedEvents(Drain(data, responses).0)
      ensures unsent == Drain(data, responses).1
      ensures queue == old(queue) && shutdownPending == old(shutdownPending)
    {
      var rest := data;
      var i := 0;
      ghost var pieces: seq<seq<byte>> := [];
      DrainedStart(data, responses);
      while rest != [] && i < |responses|
        invariant 0 <= i <= |responses|
        invariant DrainedSoFar(data, responses, pieces, rest, i)
        invariant sink == old(sink) + AcceptedEvents(pieces)
        invariant queue == old(queue) && shutdownPending == old(shutdownPending)
      {
        var written := responses[i];
        DrainedNext(data, responses, pieces, rest, i);
        if written > 0 {
          var n := Min(written, |rest|);
          AcceptedEventsNext(pieces, rest[..n]);
          sink := sink + [Accepted(rest[..n])];
          pieces := pieces + [rest[..n]];
          rest := rest[n..];
        }
        i := i + 1;
      }
      DrainedEnd(data, responses, pieces, rest, i);
      unsent := rest;
    }

    /**
     * One pass of the loop in `run`: stop when a shutdown is pending; otherwise take the next
     * message if there is one (the timed wait is not modelled) and dispatch it: a volume change
     * goes to the sink, a chunk is paced against the buffered microseconds and written or dropped.
     */
    method Step(usecsBuffered: int, responses: seq<int>) returns (running: bool)
      modifies this
      ensures running == !old(shutdownPending) && shutdownPending == old(shutdownPending)
      ensures !running || old(queue) == [] ==> queue == old(queue) && sink == old(sink)
      ensures running && old(queue) != [] ==>
                queue == old(queue)[1..]
                && sink == old(sink) + Dispatch(old(queue)[0], usecsBuffered, targetDelayUs, delayToleranceUs, responses)
    {
      if shutdownPending {
        return false;
      }
      running := true;
      if queue == [] {
        return;
      }
      var message := queue[0];
      queue := queue[1..];
      match message
      case VolumeUpdate(v) =>
        sink := sink + [VolumeSet(v)];
      case SoundChunk(data) =>
        var pacing := Pace(usecsBuffered, targetDelayUs, delayToleranceUs);
        if pacing == SkipAboveBand {
        } else if pacing == WriteBelowBand {
          var _ := WriteData(data, responses);
        } else {
          var _ := WriteData(data, responses);
        }
    }
  }

  /** `AudioStreamPlayer`: remembers the volume it was last given and forwards everything to its worker. */
  class AudioStreamPlayer {
    var volume: real
    const worker: AudioStreamPlayerWorker
    /** Every volume passed to `set_volume`, in order. */
    ghost var volumesGiven: seq<real>

    ghost predicate Valid()
      reads this
    {
      volume == (if volumesGiven == [] then 0.0 else volumesGiven[|volumesGiven| - 1])
    }

    constructor (targetDelayUs: int, delayToleranceUs: int)
      ensures Valid() && volumesGiven == [] && fresh(worker)
      ensures worker.targetDelayUs == targetDelayUs && worker.delayToleranceUs == delayToleranceUs
      ensures worker.queue == [] && worker.sink == []
    {
      volume := 0.0;
      volumesGiven := [];
      worker := new AudioStreamPlayerWorker(targetDelayUs, delayToleranceUs);
    }

    method Push(chunk: seq<byte>)
      modifies worker
      ensures worker.queue == old(worker.queue) + [SoundChunk(chunk)] && worker.sink == old(worker.sink)
    {
      worker.Push(chunk);
    }

    method SetVolume(v: real)
      requires Valid()
      modifies this, worker
      ensures Valid() && volumesGiven == old(volumesGiven) + [v]
      ensures worker.queue == old(worker.queue) + [VolumeUpdate(v)] && worker.sink == old(worker.sink)
    {
      volume := v;
      volumesGiven := volumesGiven + [v];
      worker.SetVolume(v);
    }

    /** `get_volume`: the last volume set, 0 before any. */
    method GetVolume() returns (v: real)
      requires Valid()
      ensures volumesGiven == [] ==> v == 0.0
      ensures volumesGiven != [] ==> v == volumesGiven[|volumesGiven| - 1]
    {
      v := volume;
    }
  }
}

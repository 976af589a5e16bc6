/** The audio-recording hook: a session that is idle, recording or paused,
    driven by the user's start/pause/resume/stop and by two callbacks from
    the platform, the one-second interval tick and the recorder's
    chunk-available event. Microphone access, the recorder and the timers
    are outside the model; their outcomes arrive as parameters and events. */
module Recording {
  import opened Strings
  import opened Wrappers

  type Byte = b: int | 0 <= b < 256

  /** One piece of encoded audio handed over by the recorder; its size is `|data|`. */
  datatype Chunk = Chunk(data: seq<Byte>)

  /** The single audio artifact built from the chunks (`new Blob(chunks, {type: 'audio/webm'})`). */
  datatype AudioBlob = AudioBlob(data: seq<Byte>)

  /** The bytes of the chunks, one after another, in arrival order. */
  function Concat(chunks: seq<Chunk>): (bytes: seq<Byte>)
    ensures |bytes| == TotalSize(chunks)
  {
    if chunks == [] then [] else Concat(chunks[..|chunks| - 1]) + chunks[|chunks| - 1].data
  }

  function TotalSize(chunks: seq<Chunk>): nat {
    if chunks == [] then 0 else TotalSize(chunks[..|chunks| - 1]) + |chunks[|chunks| - 1].data|
  }

  /** Every chunk's bytes appear in the artifact, at the offset given by the sizes of the chunks before it. */
  lemma {:induction false} ConcatContainsChunk(chunks: seq<Chunk>, i: nat)
    requires i < |chunks|
    ensures TotalSize(chunks[..i]) + |chunks[i].data| <= |Concat(chunks)|
    ensures Concat(chunks)[TotalSize(chunks[..i])..TotalSize(chunks[..i]) + |chunks[i].data|] == chunks[i].data
    decreases |chunks|
  {
    var n := |chunks| - 1;
    var init := chunks[..n];
    assert chunks[..n][..i] == chunks[..i] by {
      assert i <= n;
    }
    if i == n {
      assert Concat(chunks) == Concat(init) + chunks[n].data;
    } else {
      ConcatContainsChunk(init, i);
      assert init[i] == chunks[i];
      assert Concat(chunks) == Concat(init) + chunks[n].data;
    }
  }

  /** With only non-empty chunks, the artifact is empty exactly when no chunk arrived. */
  lemma {:induction false} ConcatEmptyIff(chunks: seq<Chunk>)
    requires forall i | 0 <= i < |chunks| :: |chunks[i].data| > 0
    ensures Concat(chunks) == [] <==> chunks == []
  {
    if chunks != [] {
      var n := |chunks| - 1;
      assert |Concat(chunks)| == |Concat(chunks[..n])| + |chunks[n].data|;
    }
  }

  /** `formatTime(seconds)`: minutes and seconds, each zero-padded to two digits, joined by ':'. */
  function FormatTime(seconds: nat): string {
    PadStart(NatToDecimal(seconds / 60), 2, '0') + ":" + PadStart(NatToDecimal(seconds % 60), 2, '0')
  }

  /** `n.toString().padStart(2, '0')`: a digit string of value `n`, at least
      two characters long, exactly two when `n` is below 100. */
  lemma TwoDigitPad(n: nat)
    ensures var p := PadStart(NatToDecimal(n), 2, '0');
      && IsDigits(p) && DecimalValue(p) == n && |p| >= 2
      && (n < 100 <==> |p| == 2)
  {
    var d := NatToDecimal(n);
    PadStartDigits(d, 2);
    if |d| <= 2 {
      DigitsBound(d);
    } else {
      DecimalValueOfLonger(d);
    }
  }

  /** A digit string of three or more digits without a leading zero is at least 100. */
  lemma DecimalValueOfLonger(d: string)
    requires IsDigits(d) && |d| > 2 && d[0] != '0'
    ensures DecimalValue(d) >= 100
    decreases |d|
  {
    var init := d[..|d| - 1];
    assert init[0] == d[0];
    if |d| == 3 {
      assert init[..1] == [d[0]];
      assert [d[0]][..0] == [];
      assert DecimalValue([d[0]]) == DigitValue(d[0]) >= 1;
    } else {
      DecimalValueOfLonger(init);
    }
  }

  /** A digit string of at most two digits is below 100. */
  lemma DigitsBound(s: string)
    requires IsDigits(s) && |s| <= 2
    ensures DecimalValue(s) < 100
  {
    if |s| == 2 {
      assert s[..1][..0] == [];
    } else if |s| == 1 {
      assert s[..0] == [];
    }
  }

  /** The rendering reads back: the last two characters are the seconds
      (below 60), the colon precedes them, and what comes before is the
      whole number of minutes, never truncated. Below 100 minutes the
      result is exactly "MM:SS". */
  lemma FormatTimeReadsBack(seconds: nat)
    ensures var r := FormatTime(seconds);
      && |r| >= 5 && r[|r| - 3] == ':'
      && IsDigits(r[..|r| - 3]) && IsDigits(r[|r| - 2..])
      && DecimalValue(r[|r| - 2..]) < 60
      && DecimalValue(r[..|r| - 3]) * 60 + DecimalValue(r[|r| - 2..]) == seconds
      && (seconds < 6000 <==> |r| == 5)
  {
    var mins, secs := seconds / 60, seconds % 60;
    MinutesAndSeconds(seconds);
    var m := PadStart(NatToDecimal(mins), 2, '0');
    var s := PadStart(NatToDecimal(secs), 2, '0');
    TwoDigitPad(mins);
    TwoDigitPad(secs);
    assert |s| == 2;
    var r := FormatTime(seconds);
    assert r == m + ":" + s;
    ClockParts(m, s);
    assert DecimalValue(r[..|r| - 3]) == mins;
    assert DecimalValue(r[|r| - 2..]) == secs;
  }

  /** Whole minutes and leftover seconds. */
  lemma MinutesAndSeconds(seconds: nat)
    ensures seconds == (seconds / 60) * 60 + seconds % 60 && seconds % 60 < 60
    ensures seconds < 6000 <==> seconds / 60 < 100
  {
  }

  lemma ClockParts(m: string, s: string)
    requires |s| == 2
    ensures var r := m + ":" + s;
      |r| == |m| + 3 && r[|r| - 3] == ':' && r[..|r| - 3] == m && r[|r| - 2..] == s
  {
  }


  /** One recording session (the state of `useRecording`). */
  class RecordingSession {
    var isRecording: bool
    var isPaused: bool
    var recordingTime: nat
    /** `audioChunksRef.current` */
    var chunks: seq<Chunk>
    /** `mediaRecorderRef.current !== null` */
    var hasRecorder: bool
    /** the tracks of `streamRef.current` are still capturing */
    var streamLive: bool
    /** the interval held in `recordingIntervalRef.current` is running */
    var intervalLive: bool
    /** intervals still running although no ref points at them any more
        (a start while an interval runs replaces the ref without clearing it) */
    var leakedIntervals: nat

    ghost predicate Valid()
      reads this
    {
      && (isPaused ==> isRecording)
      && (isRecording ==> hasRecorder)
      && (forall i | 0 <= i < |chunks| :: |chunks[i].data| > 0)
      && intervalLive == (isRecording && !isPaused)
    }

    /** True when some interval callback can still fire. */
    predicate Ticking()
      reads this
    {
      intervalLive || leakedIntervals > 0
    }

    constructor ()
      ensures Valid()
      ensures !isRecording && !isPaused && recordingTime == 0 && chunks == []
      ensures !hasRecorder && !streamLive && !intervalLive && leakedIntervals == 0
    {
      isRecording, isPaused, recordingTime, chunks := false, false, 0, [];
      hasRecorder, streamLive, intervalLive, leakedIntervals := false, false, false, 0;
    }

    /** `startRecording`. `micGranted` is the outcome of the microphone
        request and `recorderOk` whether the recorder accepts the
        `audio/webm;codecs=opus` type. On refusal nothing changes. When the
        recorder constructor throws, the granted stream is already kept and
        nothing else changes. Otherwise a fresh recorder and an empty chunk
        list, recording from zero with a running interval. */
    method Start(micGranted: bool, recorderOk: bool)
      requires Valid()
      modifies this
      ensures Valid()
      ensures !micGranted ==> unchanged(this)
      ensures micGranted && !recorderOk ==>
        && streamLive
        && isRecording == old(isRecording) && isPaused == old(isPaused)
        && recordingTime == old(recordingTime) && chunks == old(chunks)
        && hasRecorder == old(hasRecorder) && intervalLive == old(intervalLive)
        && leakedIntervals == old(leakedIntervals)
      ensures micGranted && recorderOk ==>
        && isRecording && !isPaused && recordingTime == 0 && chunks == []
        && hasRecorder && streamLive && intervalLive
        && leakedIntervals == old(leakedIntervals) + (if old(intervalLive) then 1 else 0)
    {
      if !micGranted {
        return;
      }
      streamLive := true;
      if !recorderOk {
        return;
      }
      hasRecorder := true;
      chunks := [];
      isRecording := true;
      isPaused := false;
      recordingTime := 0;
      if intervalLive {
        leakedIntervals := leakedIntervals + 1;
      }
      intervalLive := true;
    }

    /** `pauseRecording`: acts only while recording and not paused. */
    method Pause()
      requires Valid()
      modifies this
      ensures Valid()
      ensures old(hasRecorder && isRecording && !isPaused) ==>
        && isPaused && !intervalLive && isRecording
        && recordingTime == old(recordingTime) && chunks == old(chunks)
        && hasRecorder && streamLive == old(streamLive) && leakedIntervals == old(leakedIntervals)
      ensures !old(hasRecorder && isRecording && !isPaused) ==> unchanged(this)
    {
      if hasRecorder && isRecording && !isPaused {
        isPaused := true;
        intervalLive := false;
      }
    }

    /** `resumeRecording`: acts only while recording and paused. */
    method Resume()
      requires Valid()
      modifies this
      ensures Valid()
      ensures old(hasRecorder && isRecording && isPaused) ==>
        && !isPaused && intervalLive && isRecording
        && recordingTime == old(recordingTime) && chunks == old(chunks)
        && hasRecorder && streamLive == old(streamLive) && leakedIntervals == old(leakedIntervals)
      ensures !old(hasRecorder && isRecording && isPaused) ==> unchanged(this)
    {
      if hasRecorder && isRecording && isPaused {
        isPaused := false;
        intervalLive := true;
      }
    }

    /** One firing of a running interval: `recordingTime` goes up by exactly one.
        With no interval running there is nothing to fire. */
    method Tick()
      requires Valid()
      modifies this`recordingTime
      ensures Valid()
      ensures recordingTime == old(recordingTime) + (if Ticking() then 1 else 0)
    {
      if intervalLive || leakedIntervals > 0 {
        recordingTime := recordingTime + 1;
      }
    }

    /** `ondataavailable`: the recorder hands over a chunk; only non-empty
        chunks are kept, appended in arrival order. */
    method ChunkAvailable(c: Chunk)
      requires Valid()
      modifies this`chunks
      ensures Valid()
      ensures chunks == if hasRecorder && |c.data| > 0 then old(chunks) + [c] else old(chunks)
      ensures Concat(chunks) == if hasRecorder then old(Concat(chunks)) + c.data else old(Concat(chunks))
    {
      if hasRecorder && |c.data| > 0 {
        chunks := chunks + [c];
        assert chunks[..|chunks| - 1] == old(chunks);
      }
    }

    /** `stopRecording`: when not recording it yields no artifact and changes
        nothing; otherwise it ends the session, stops the interval and the
        microphone, and yields every chunk so far as one artifact. */
    method Stop() returns (blob: Option<AudioBlob>)
      requires Valid()
      modifies this
      ensures Valid()
      ensures !old(hasRecorder && isRecording) ==> blob == None && unchanged(this)
      ensures old(hasRecorder && isRecording) ==>
        && blob == Some(AudioBlob(Concat(old(chunks))))
        && !isRecording && !isPaused && !intervalLive && !streamLive
        && chunks == old(chunks) && recordingTime == old(recordingTime)
        && hasRecorder && leakedIntervals == old(leakedIntervals)
    {
      if hasRecorder && isRecording {
        blob := Some(AudioBlob(Concat(chunks)));
        isRecording := false;
        isPaused := false;
        intervalLive := false;
        streamLive := false;
      } else {
        blob := None;
      }
    }

    /** `getAudioBlob`: the artifact of the chunks so far, or none when there are no chunks. */
    method GetAudioBlob() returns (blob: Option<AudioBlob>)
      requires Valid()
      ensures blob.Some? <==> chunks != []
      ensures blob.Some? ==> blob.value.data == Concat(chunks) && blob.value.data != []
    {
      ConcatEmptyIff(chunks);
      if |chunks| > 0 {
        blob := Some(AudioBlob(Concat(chunks)));
      } else {
        blob := None;
      }
    }
  }
}

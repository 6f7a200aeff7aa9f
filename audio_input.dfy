/**
 * The module-level recorder of `audioInput.ts`: a `MediaRecorder` reference,
 * replaced on every start, and an array of the encoded chunks it has delivered.
 * Each `dataavailable` event appends its chunk unless it is empty; the `stop`
 * event turns the array into one `audio/webm` blob and empties it.
 *
 * `stop()` makes the browser queue the recorder's last `dataavailable` and
 * then its `stop` event; in the model that is an `OnDataAvailable` call
 * between `StopRecording` and `OnStop`. A recorder can also end by itself
 * (its tracks end or recording fails), which is `OnRecorderEnded`.
 */
module AudioInput {
  import opened Wrappers
  import opened Media

  /** The bytes of one encoded chunk (`event.data`, a `Blob`). */
  type Chunk = seq<Byte>

  /** A `Blob`: its bytes and its MIME type. */
  datatype Blob = Blob(data: seq<Byte>, mimeType: string)

  /** The type the stop handler gives the recording. */
  const RecordingMimeType: string := "audio/webm"

  /**
   * What a `stopRecording` call leaves its promise to: it rejects when no
   * recorder was ever started (`mediaRecorder` is `undefined`); it waits for
   * the recorder's `stop` event when one is still to be dispatched; otherwise
   * it never settles, since a recorder that has already dispatched its `stop`
   * event does not dispatch another.
   */
  datatype StopOutcome = Rejected | AwaitsStopEvent | NeverSettles

  /** The bytes of the parts, one after another (what `new Blob(parts)` holds). */
  function Concat(parts: seq<Chunk>): seq<Byte>
    decreases |parts|
  {
    if parts == [] then [] else Concat(parts[..|parts| - 1]) + parts[|parts| - 1]
  }

  /** The chunks that the `dataavailable` handler keeps, in arrival order. */
  function NonEmpty(arrivals: seq<Chunk>): (kept: seq<Chunk>)
    ensures |kept| <= |arrivals|
    ensures forall i :: 0 <= i < |kept| ==> |kept[i]| > 0
    decreases |arrivals|
  {
    if arrivals == [] then []
    else
      var last := arrivals[|arrivals| - 1];
      NonEmpty(arrivals[..|arrivals| - 1]) + (if |last| > 0 then [last] else [])
  }

  /** The sum of the sizes of the chunks. */
  function TotalSize(chunks: seq<Chunk>): nat
    decreases |chunks|
  {
    if chunks == [] then 0 else TotalSize(chunks[..|chunks| - 1]) + |chunks[|chunks| - 1]|
  }

  /** The blob holds exactly as many bytes as its parts. */
  lemma {:induction false} ConcatLength(parts: seq<Chunk>)
    ensures |Concat(parts)| == TotalSize(parts)
    decreases |parts|
  {
    if parts != [] {
      ConcatLength(parts[..|parts| - 1]);
    }
  }

  /** Concatenating a longer list of parts extends the bytes of the shorter one. */
  lemma {:induction false} ConcatAppend(parts: seq<Chunk>, more: seq<Chunk>)
    ensures Concat(parts + more) == Concat(parts) + Concat(more)
    decreases |more|
  {
    if more != [] {
      var init := more[..|more| - 1];
      assert (parts + more)[..|parts + more| - 1] == parts + init;
      assert (parts + more)[|parts + more| - 1] == more[|more| - 1];
      ConcatAppend(parts, init);
      assert Concat(more) == Concat(init) + more[|more| - 1];
    } else {
      assert parts + more == parts;
    }
  }

  /** The i-th part sits in the blob right after the parts before it. */
  lemma ConcatPlacesPart(parts: seq<Chunk>, i: nat)
    requires i < |parts|
    ensures var at := TotalSize(parts[..i]);
      at + |parts[i]| <= |Concat(parts)| && Concat(parts)[at..at + |parts[i]|] == parts[i]
  {
    assert parts == parts[..i] + [parts[i]] + parts[i + 1..];
    ConcatAppend(parts[..i] + [parts[i]], parts[i + 1..]);
    ConcatAppend(parts[..i], [parts[i]]);
    assert Concat([parts[i]]) == parts[i] by {
      var one: seq<Chunk> := [parts[i]];
      assert one[..0] == [];
    }
    ConcatLength(parts[..i]);
  }

  /** Empty chunks add nothing: the kept chunks are as large as all that arrived. */
  lemma {:induction false} NonEmptyTotalSize(arrivals: seq<Chunk>)
    ensures TotalSize(NonEmpty(arrivals)) == TotalSize(arrivals)
    decreases |arrivals|
  {
    if arrivals != [] {
      var init, last := arrivals[..|arrivals| - 1], arrivals[|arrivals| - 1];
      NonEmptyTotalSize(init);
      if |last| > 0 {
        assert NonEmpty(arrivals)[..|NonEmpty(arrivals)| - 1] == NonEmpty(init);
      } else {
        assert NonEmpty(arrivals) == NonEmpty(init);
      }
    }
  }

  /** Dropping the empty chunks does not change the bytes. */
  lemma {:induction false} NonEmptyConcat(arrivals: seq<Chunk>)
    ensures Concat(NonEmpty(arrivals)) == Concat(arrivals)
    decreases |arrivals|
  {
    if arrivals != [] {
      var init, last := arrivals[..|arrivals| - 1], arrivals[|arrivals| - 1];
      NonEmptyConcat(init);
      if |last| > 0 {
        assert NonEmpty(arrivals)[..|NonEmpty(arrivals)| - 1] == NonEmpty(init);
      } else {
        assert NonEmpty(arrivals) == NonEmpty(init);
        assert Concat(arrivals) == Concat(init) + last;
      }
    }
  }

  /** A kept chunk is one that arrived, and the kept chunks keep their arrival order. */
  lemma {:induction false} NonEmptyKeepsOrder(arrivals: seq<Chunk>, more: seq<Chunk>)
    ensures NonEmpty(arrivals + more) == NonEmpty(arrivals) + NonEmpty(more)
    decreases |more|
  {
    if more != [] {
      var init := more[..|more| - 1];
      assert (arrivals + more)[..|arrivals + more| - 1] == arrivals + init;
      assert (arrivals + more)[|arrivals + more| - 1] == more[|more| - 1];
      NonEmptyKeepsOrder(arrivals, init);
    } else {
      assert arrivals + more == arrivals;
    }
  }

  /**
   * The recorder and the chunk array of `audioInput.ts`.
   *
   * `stopRecording` registers a `stop` listener and calls `stop()`, which makes
   * the recorder inactive at once and dispatches `stop` in a later task. Until
   * then `waiting` holds, for each recorder with a `stop` event to come, how
   * many listeners it will run.
   */
  class ChunkRecorder {
    /** `mediaRecorder`: `undefined` until the first start. */
    var mediaRecorder: Option<Handle>
    /** Whether that recorder is recording (its `state` is not `inactive`). */
    var recorderActive: bool
    /** For each stopped recorder whose `stop` event is still to come, the listeners it will run. */
    var waiting: map<Handle, nat>
    /** `recordedChunks`. */
    var recordedChunks: seq<Chunk>
    /** Every chunk delivered since the array was last emptied (the last `stop` event that ran a listener), empty ones included. */
    ghost var arrivals: seq<Chunk>

    ghost predicate Valid()
      reads this
    {
      && recordedChunks == NonEmpty(arrivals)
      && (forall r :: r in waiting ==> waiting[r] > 0)
      && (recorderActive ==> mediaRecorder.Some? && mediaRecorder.value !in waiting)
    }

    /** The module is loaded: no recorder, no chunks. */
    constructor ()
      ensures Valid() && mediaRecorder == None && !recorderActive && waiting == map[]
      ensures recordedChunks == [] && arrivals == []
    {
      mediaRecorder := None;
      recorderActive := false;
      waiting := map[];
      recordedChunks := [];
      arrivals := [];
    }

    /**
     * `startRecording(stream)`: `recorder` is `new MediaRecorder(stream)`, a
     * recorder not seen before, whose `dataavailable` events reach
     * `OnDataAvailable` and which `start()` sets recording. The chunk array and
     * the listeners of earlier recorders are left as they are.
     */
    method StartRecording(recorder: Handle)
      requires Valid() && recorder !in waiting
      modifies this`mediaRecorder, this`recorderActive
      ensures Valid()
      ensures mediaRecorder == Some(recorder) && recorderActive
      ensures recordedChunks == old(recordedChunks) && arrivals == old(arrivals) && waiting == old(waiting)
    {
      mediaRecorder := Some(recorder);
      recorderActive := true;
    }

    /** The `dataavailable` listener: keeps the chunk if it has any bytes. */
    method OnDataAvailable(chunk: Chunk)
      requires Valid()
      modifies this`recordedChunks, this`arrivals
      ensures Valid()
      ensures arrivals == old(arrivals) + [chunk]
      ensures recordedChunks == if |chunk| > 0 then old(recordedChunks) + [chunk] else old(recordedChunks)
      ensures |recordedChunks| >= |old(recordedChunks)|
      ensures recordedChunks[..|old(recordedChunks)|] == old(recordedChunks)
    {
      arrivals := arrivals + [chunk];
      if |chunk| > 0 {
        recordedChunks := recordedChunks + [chunk];
      }
    }

    /**
     * The current recorder stops by itself: its tracks ended or recording
     * failed. It becomes inactive, and its own `dataavailable` and `stop`
     * events follow; no listener waits on it, so the `stop` event runs none
     * and the chunks it delivered stay in the array for the next blob.
     */
    method OnRecorderEnded()
      requires Valid() && recorderActive
      modifies this`recorderActive
      ensures Valid() && !recorderActive
      ensures mediaRecorder == old(mediaRecorder) && mediaRecorder.value !in waiting
      ensures waiting == old(waiting) && recordedChunks == old(recordedChunks) && arrivals == old(arrivals)
    {
      recorderActive := false;
    }

    /**
     * `stopRecording`, up to the `stop` event: with no recorder the promise
     * rejects. Otherwise a listener is added to the current recorder, and
     * `stop()` makes an active recorder inactive and schedules its `stop`
     * event. A listener added to a recorder whose event is still to come waits
     * with the others; one added after that event never runs. The chunk array
     * is not touched.
     */
    method StopRecording() returns (r: StopOutcome)
      requires Valid()
      modifies this`recorderActive, this`waiting
      ensures Valid()
      ensures old(mediaRecorder).None? ==> r == Rejected && waiting == old(waiting)
      ensures old(mediaRecorder).Some? ==>
        var rec := old(mediaRecorder).value;
        && (old(recorderActive) ==> r == AwaitsStopEvent && waiting == old(waiting)[rec := 1])
        && (!old(recorderActive) && rec in old(waiting) ==>
              r == AwaitsStopEvent && waiting == old(waiting)[rec := old(waiting)[rec] + 1])
        && (!old(recorderActive) && rec !in old(waiting) ==> r == NeverSettles && waiting == old(waiting))
      ensures r == AwaitsStopEvent <==> old(mediaRecorder).Some? && old(mediaRecorder).value in waiting
      ensures !recorderActive
      ensures recordedChunks == old(recordedChunks) && arrivals == old(arrivals)
    {
      if mediaRecorder.None? {
        return Rejected;
      }
      var rec := mediaRecorder.value;
      if recorderActive {
        recorderActive := false;
        waiting := waiting[rec := 1];
        r := AwaitsStopEvent;
      } else if rec in waiting {
        waiting := waiting[rec := waiting[rec] + 1];
        r := AwaitsStopEvent;
      } else {
        r := NeverSettles;
      }
    }

    /**
     * `recorder`'s `stop` event: its listeners run in the order they were
     * added, and each resolves its promise with a blob of the chunk array and
     * then empties it. The first blob holds the kept chunks in order, as many
     * bytes as every chunk delivered since the array was last emptied; the
     * blobs of the listeners after it are empty.
     */
    method OnStop(recorder: Handle) returns (blobs: seq<Blob>)
      requires Valid() && recorder in waiting
      modifies this`recordedChunks, this`arrivals, this`waiting
      ensures Valid()
      ensures |blobs| == old(waiting)[recorder] > 0
      ensures blobs[0] == Blob(Concat(old(recordedChunks)), RecordingMimeType)
      ensures blobs[0].data == Concat(old(arrivals)) && |blobs[0].data| == TotalSize(old(arrivals))
      ensures forall i :: 1 <= i < |blobs| ==> blobs[i] == Blob([], RecordingMimeType)
      ensures recordedChunks == [] && arrivals == []
      ensures waiting == old(waiting) - {recorder}
    {
      NonEmptyConcat(arrivals);
      ConcatLength(arrivals);
      var listeners := waiting[recorder];
      blobs := [];
      var i := 0;
      while i < listeners
        invariant 0 <= i <= listeners
        invariant |blobs| == i
        invariant i > 0 ==> blobs[0] == Blob(Concat(old(recordedChunks)), RecordingMimeType)
        invariant forall j :: 1 <= j < i ==> blobs[j] == Blob([], RecordingMimeType)
        invariant i > 0 ==> recordedChunks == [] && arrivals == []
        invariant i == 0 ==> recordedChunks == old(recordedChunks) && arrivals == old(arrivals)
        invariant recordedChunks == NonEmpty(arrivals)
        invariant waiting == old(waiting)
      {
        blobs := blobs + [Blob(Concat(recordedChunks), RecordingMimeType)];
        recordedChunks := [];
        arrivals := [];
        i := i + 1;
      }
      waiting := waiting - {recorder};
    }
  }
}

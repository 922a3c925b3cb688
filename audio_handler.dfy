/** The edge device's `AudioHandler` (`edge/audio_handler.py`): its settings,
    and the chunk loop of `record_until_silence`, which reads up to
    `max_chunks` chunks, keeps every chunk it reads, counts consecutive quiet
    chunks and stops once that count reaches `chunks_for_silence`. The
    microphone is a function from chunk position to chunk, and the RMS test
    is a given predicate on chunks. */
module Audio {
  import opened Outcomes

  /** What `np.concatenate([])` raises when no chunk was read. */
  const NoChunksMessage: string := "need at least one array to concatenate"

  /** The number of consecutive quiet chunks ending just before position `m`:
      the value `silence_chunks` has once `m` chunks have been read. */
  function Streak<Chunk>(stream: nat -> Chunk, quiet: Chunk -> bool, m: nat): nat
  {
    if m == 0 then 0
    else if quiet(stream(m - 1)) then Streak(stream, quiet, m - 1) + 1
    else 0
  }

  /** The loop breaks right after reading the `m`-th chunk (`m >= 1`): that
      chunk was quiet and the quiet run it ends reaches `chunksForSilence`. */
  predicate StopsAt<Chunk>(stream: nat -> Chunk, quiet: Chunk -> bool, chunksForSilence: int, m: nat)
  {
    m >= 1 && quiet(stream(m - 1)) && Streak(stream, quiet, m) >= chunksForSilence
  }

  /** The quiet run before position `m` is exactly the last `Streak(m)`
      chunks: they are all quiet, and the chunk before them (if any) is not. */
  lemma {:induction false} StreakSpec<Chunk>(stream: nat -> Chunk, quiet: Chunk -> bool, m: nat)
    ensures Streak(stream, quiet, m) <= m
    ensures forall k :: m - Streak(stream, quiet, m) <= k < m ==> quiet(stream(k))
    ensures Streak(stream, quiet, m) < m ==> !quiet(stream(m - Streak(stream, quiet, m) - 1))
  {
    if m > 0 {
      StreakSpec(stream, quiet, m - 1);
    }
  }

  /** Where the loop stops for silence, the last `chunksForSilence` chunks
      read are all quiet; a loud chunk never stops it. */
  lemma StopsAtSpec<Chunk>(stream: nat -> Chunk, quiet: Chunk -> bool, chunksForSilence: int, m: nat)
    ensures StopsAt(stream, quiet, chunksForSilence, m) ==>
              chunksForSilence <= m && forall k :: m - chunksForSilence <= k < m ==> quiet(stream(k))
    ensures m >= 1 && !quiet(stream(m - 1)) ==> !StopsAt(stream, quiet, chunksForSilence, m)
  {
    StreakSpec(stream, quiet, m);
  }

  class AudioHandler {
    var sampleRate: int
    var channels: int
    var chunkSize: int
    var deviceIndex: Option<int>
    /** Whether an output stream is held (never opened by the modelled code). */
    var stream: Option<()>
    var isRecording: bool

    /** Stores the four settings; no stream and not recording. */
    constructor(sampleRate: int := 16000, channels: int := 1, chunkSize: int := 1024, deviceIndex: Option<int> := None)
      ensures this.sampleRate == sampleRate && this.channels == channels
      ensures this.chunkSize == chunkSize && this.deviceIndex == deviceIndex
      ensures stream == None && !isRecording
    {
      this.sampleRate := sampleRate;
      this.channels := channels;
      this.chunkSize := chunkSize;
      this.deviceIndex := deviceIndex;
      stream := None;
      isRecording := false;
    }

    /** The loop of `record_until_silence`, given `chunks_for_silence` and
        `max_chunks` as computed from the durations. The chunks kept are the
        first ones of the stream, in order, up to and including the one that
        ends the loop; the loop ends at the first silence stop or after
        `max_chunks` chunks. With no chunk read the concatenation fails. */
    method RecordUntilSilence<Chunk>(stream: nat -> Chunk, quiet: Chunk -> bool, chunksForSilence: int, maxChunks: int)
      returns (r: Result<seq<Chunk>>)
      ensures r.Ok? <==> maxChunks > 0
      ensures r.Err? ==> r.message == NoChunksMessage
      ensures r.Ok? ==> 1 <= |r.value| <= maxChunks
      ensures r.Ok? ==> forall k :: 0 <= k < |r.value| ==> r.value[k] == stream(k)
      ensures r.Ok? ==> forall m :: 1 <= m < |r.value| ==> !StopsAt(stream, quiet, chunksForSilence, m)
      ensures r.Ok? && |r.value| < maxChunks ==> StopsAt(stream, quiet, chunksForSilence, |r.value|)
    {
      var chunks: seq<Chunk> := [];
      var silenceChunks := 0;
      var i := 0;
      while i < maxChunks
        invariant 0 <= i <= (if maxChunks > 0 then maxChunks else 0)
        invariant |chunks| == i && forall k :: 0 <= k < i ==> chunks[k] == stream(k)
        invariant silenceChunks == Streak(stream, quiet, i)
        invariant forall m :: 1 <= m <= i ==> !StopsAt(stream, quiet, chunksForSilence, m)
        decreases maxChunks - i
      {
        var chunk := stream(i);
        chunks := chunks + [chunk];
        i := i + 1;
        if quiet(chunk) {
          silenceChunks := silenceChunks + 1;
          if silenceChunks >= chunksForSilence {
            assert StopsAt(stream, quiet, chunksForSilence, i);
            break;
          }
        } else {
          silenceChunks := 0;
        }
      }
      if chunks == [] {
        return Err(NoChunksMessage);
      }
      return Ok(chunks);
    }
  }
}

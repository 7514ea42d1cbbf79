/**
  Artifact transfer: the plugin's chunking writer (sdk/go/wkbench/plugin/server.go)
  and the host's writers (benchkit/pluginhost/stdio_client.go). How a chunk frame
  is marshalled is a parameter.
 */
module Artifacts {
  import opened Framing

  const CHUNK_MAX_BYTES: nat := 64 * 1024
  const READER_LIMIT: nat := 16 * 1024 * 1024

  datatype Chunk = Chunk(handle: string, sequence: nat, data: Bytes)

  /** The chunks of one Write, numbered from `sequence` + 1. */
  function ChunksOf(handle: string, sequence: nat, p: Bytes): seq<Chunk>
    decreases |p|
  {
    if p == [] then []
    else
      var end := if |p| < CHUNK_MAX_BYTES then |p| else CHUNK_MAX_BYTES;
      [Chunk(handle, sequence + 1, p[..end])] + ChunksOf(handle, sequence + 1, p[end..])
  }

  /** The bytes a list of chunks carries. */
  function Joined(chunks: seq<Chunk>): Bytes {
    if chunks == [] then [] else Joined(chunks[..|chunks| - 1]) + chunks[|chunks| - 1].data
  }

  /** One open remote artifact. `room` is how many frames the pipe will still take. */
  class RemoteArtifactWriter {
    const handle: string
    var sequence: nat
    var closed: bool
    var room: nat
    var sent: seq<Chunk>

    constructor (handle: string, room: nat)
      ensures this.handle == handle && this.room == room && sequence == 0 && !closed && sent == []
    {
      this.handle, this.room := handle, room;
      sequence, closed, sent := 0, false, [];
    }

    /**
      A closed writer sends nothing. An open one sends the chunks of its input in order
      while the pipe takes them, succeeds exactly if it takes them all, and reports as
      written the bytes of those sent; a chunk that cannot be sent uses up its number.
     */
    method Write(p: Bytes) returns (written: nat, ok: bool, ghost chunks: seq<Chunk>)
      modifies this
      ensures old(closed) ==> !ok && chunks == [] && sequence == old(sequence)
      ensures !old(closed) ==>
                var due := |ChunksOf(handle, old(sequence), p)|;
                && (ok <==> due <= old(room)) && |chunks| == (if ok then due else old(room))
                && sequence == old(sequence) + |chunks| + (if ok then 0 else 1)
      ensures room == old(room) - |chunks|
      ensures written <= |p| && closed == old(closed) && sent == old(sent) + chunks
      ensures ok <==> written == |p| && (p == [] ==> !closed)
      ensures Joined(chunks) == p[..written] && chunks <= ChunksOf(handle, old(sequence), p)
      ensures ok ==> chunks == ChunksOf(handle, old(sequence), p)
    {
      hide Joined, ChunksOf;
      Nothing(handle, sequence, p);
      written, ok, chunks := 0, false, [];
      if closed { return; }
      while written < |p|
        invariant written <= |p| && sent == old(sent) + chunks && closed == old(closed)
        invariant Progress(handle, old(sequence), p, written, sequence, chunks)
        invariant sequence == old(sequence) + |chunks| && room == old(room) - |chunks|
      {
        hide Progress;
        var end := written + CHUNK_MAX_BYTES;
        if end > |p| { end := |p|; }
        if room == 0 {
          sequence := sequence + 1;
          SentSoFar(handle, old(sequence), p, written, sequence - 1, chunks);
          MoreToSend(handle, old(sequence), p, written, sequence - 1, chunks);
          return;
        }
        OneChunk(handle, old(sequence), p, written, sequence, chunks, end);
        sequence := sequence + 1;
        room := room - 1;
        sent := sent + [Chunk(handle, sequence, p[written..end])];
        chunks := chunks + [Chunk(handle, sequence, p[written..end])];
        written := end;
      }
      AllSent(handle, old(sequence), p, sequence, chunks);
      ok := true;
    }
  }

  /** After `written` bytes the chunks sent are the first ones, and the rest is still to come. */
  ghost predicate Progress(handle: string, first: nat, p: Bytes, written: nat, sequence: nat, chunks: seq<Chunk>) {
    && written <= |p| && Joined(chunks) == p[..written]
    && ChunksOf(handle, first, p) == chunks + ChunksOf(handle, sequence, p[written..])
  }

  lemma Nothing(handle: string, sequence: nat, p: Bytes)
    ensures Progress(handle, sequence, p, 0, sequence, [])
    ensures Joined([]) == p[..0] && [] <= ChunksOf(handle, sequence, p)
  {
    assert p[0..] == p;
  }

  lemma SentSoFar(handle: string, first: nat, p: Bytes, written: nat, sequence: nat, chunks: seq<Chunk>)
    requires Progress(handle, first, p, written, sequence, chunks)
    ensures Joined(chunks) == p[..written] && chunks <= ChunksOf(handle, first, p)
  {
  }

  lemma MoreToSend(handle: string, first: nat, p: Bytes, written: nat, sequence: nat, chunks: seq<Chunk>)
    requires Progress(handle, first, p, written, sequence, chunks) && written < |p|
    ensures |chunks| < |ChunksOf(handle, first, p)|
  {
    assert p[written..] != [];
  }

  lemma AllSent(handle: string, first: nat, p: Bytes, sequence: nat, chunks: seq<Chunk>)
    requires Progress(handle, first, p, |p|, sequence, chunks)
    ensures Joined(chunks) == p[..|p|] && chunks == ChunksOf(handle, first, p)
  {
    assert p[|p|..] == [];
  }

  lemma OneChunk(handle: string, first: nat, p: Bytes, written: nat, sequence: nat, chunks: seq<Chunk>, end: nat)
    requires Progress(handle, first, p, written, sequence, chunks)
    requires written < |p| && end == (if written + CHUNK_MAX_BYTES > |p| then |p| else written + CHUNK_MAX_BYTES)
    ensures Progress(handle, first, p, end, sequence + 1, chunks + [Chunk(handle, sequence + 1, p[written..end])])
  {
    NextChunk(handle, sequence, p, written, end);
    JoinedMore(chunks, Chunk(handle, sequence + 1, p[written..end]));
    hide Joined, ChunksOf;
    assert p[..end] == p[..written] + p[written..end];
  }

  lemma JoinedMore(chunks: seq<Chunk>, c: Chunk)
    ensures Joined(chunks + [c]) == Joined(chunks) + c.data
  {
    assert (chunks + [c])[..|chunks|] == chunks;
  }

  /** The chunk that starts at `written`. */
  lemma NextChunk(handle: string, sequence: nat, p: Bytes, written: nat, end: nat)
    requires written < |p| && end == (if written + CHUNK_MAX_BYTES > |p| then |p| else written + CHUNK_MAX_BYTES)
    ensures ChunksOf(handle, sequence, p[written..])
         == [Chunk(handle, sequence + 1, p[written..end])] + ChunksOf(handle, sequence + 1, p[end..])
  {
    assert p[written..][..end - written] == p[written..end] && p[written..][end - written..] == p[end..];
  }

  lemma {:induction false} JoinedAppend(a: seq<Chunk>, b: seq<Chunk>)
    ensures Joined(a + b) == Joined(a) + Joined(b)
  {
    if b == [] {
      assert a + b == a;
    } else {
      assert (a + b)[..|a| + |b| - 1] == a + b[..|b| - 1];
      JoinedAppend(a, b[..|b| - 1]);
    }
  }

  /** Chunks are numbered in a row, none is empty, none exceeds the limit, and together they are the input. */
  lemma {:induction false} ChunksCarryAll(handle: string, sequence: nat, p: Bytes)
    ensures Joined(ChunksOf(handle, sequence, p)) == p
    ensures Numbered(ChunksOf(handle, sequence, p), handle, sequence)
    decreases |p|
  {
    if p != [] {
      var end := if |p| < CHUNK_MAX_BYTES then |p| else CHUNK_MAX_BYTES;
      var first, rest := Chunk(handle, sequence + 1, p[..end]), ChunksOf(handle, sequence + 1, p[end..]);
      ChunksCarryAll(handle, sequence + 1, p[end..]);
      assert Numbered([first], handle, sequence);
      hide Numbered;
      NumberedJoin([first], rest, handle, sequence);
      JoinedAppend([first], rest);
      assert [first][..0] == [] && Joined([first]) == p[..end];
      assert p == p[..end] + p[end..];
    }
  }

  /** The chunks of a list of Writes on one handle. */
  function Written(handle: string, sequence: nat, payloads: seq<Bytes>): seq<Chunk>
    decreases |payloads|
  {
    if payloads == [] then []
    else
      var chunks := ChunksOf(handle, sequence, payloads[0]);
      chunks + Written(handle, sequence + |chunks|, payloads[1..])
  }

  function Concat(payloads: seq<Bytes>): Bytes {
    if payloads == [] then [] else payloads[0] + Concat(payloads[1..])
  }

  /** Chunks with data that fits, on one handle, numbered from `sequence` + 1. */
  ghost predicate Numbered(chunks: seq<Chunk>, handle: string, sequence: nat) {
    forall k :: 0 <= k < |chunks| ==>
      chunks[k].handle == handle && chunks[k].sequence == sequence + 1 + k && 0 < |chunks[k].data| <= CHUNK_MAX_BYTES
  }

  lemma NumberedJoin(a: seq<Chunk>, b: seq<Chunk>, handle: string, sequence: nat)
    requires Numbered(a, handle, sequence) && Numbered(b, handle, sequence + |a|)
    ensures Numbered(a + b, handle, sequence)
  {
  }

  lemma NoPayloads(handle: string, sequence: nat)
    ensures Written(handle, sequence, []) == [] && Concat([]) == [] && Joined([]) == [] && Numbered([], handle, sequence)
  {
  }

  lemma FirstPayload(handle: string, sequence: nat, payloads: seq<Bytes>)
    requires payloads != []
    ensures var chunks := ChunksOf(handle, sequence, payloads[0]);
            Written(handle, sequence, payloads) == chunks + Written(handle, sequence + |chunks|, payloads[1..])
    ensures Concat(payloads) == payloads[0] + Concat(payloads[1..])
  {
  }

  /** However the payloads are cut, the chunks are numbered 1, 2, ... and carry all bytes in order. */
  lemma {:induction false} WrittenCarriesAll(handle: string, sequence: nat, payloads: seq<Bytes>)
    ensures Joined(Written(handle, sequence, payloads)) == Concat(payloads)
    ensures Numbered(Written(handle, sequence, payloads), handle, sequence)
    decreases |payloads|
  {
    hide ChunksOf, Numbered, Joined, Written, Concat;
    if payloads == [] {
      NoPayloads(handle, sequence);
    } else {
      var chunks := ChunksOf(handle, sequence, payloads[0]);
      var rest := Written(handle, sequence + |chunks|, payloads[1..]);
      ChunksCarryAll(handle, sequence, payloads[0]);
      WrittenCarriesAll(handle, sequence + |chunks|, payloads[1..]);
      JoinedAppend(chunks, rest);
      NumberedJoin(chunks, rest, handle, sequence);
      FirstPayload(handle, sequence, payloads);
    }
  }

  // ----------------------------------------------------------------------- the host

  datatype HostWriter = HostWriter(name: string, content: Bytes, size: nat)

  datatype WriteOutcome = Accepted | UnknownHandle | FileFailed | ShortWrite

  datatype CloseOutcome = NotOpen | CloseFailed | Closed(size: nat)

  /** What the file behind a writer does with a Write: how many bytes it takes, and whether it fails. */
  datatype FileWrite = FileWrite(taken: nat, failed: bool)

  /** The file after taking more bytes. */
  function Extended(w: HostWriter, data: Bytes): HostWriter {
    HostWriter(w.name, w.content + data, w.size + |data|)
  }

  lemma NothingExtends(w: HostWriter)
    ensures Extended(w, []) == w
  {
  }

  lemma ExtendsMore(w: HostWriter, a: Bytes, b: Bytes)
    ensures Extended(Extended(w, a), b) == Extended(w, a + b)
  {
    assert w.content + a + b == w.content + (a + b);
  }

  lemma NothingJoined()
    ensures Joined([]) == []
  {
  }

  /** The open files at the handles, in that order. */
  function FilesAt(writers: map<nat, HostWriter>, handles: seq<nat>): seq<HostWriter> {
    if handles == [] then []
    else
      var n := |handles| - 1;
      FilesAt(writers, handles[..n]) + (if handles[n] in writers then [writers[handles[n]]] else [])
  }

  ghost predicate Lists(handles: seq<nat>, writers: map<nat, HostWriter>) {
    && (forall i, j :: 0 <= i < j < |handles| ==> handles[i] != handles[j])
    && (forall h :: h in handles <==> h in writers)
  }

  /** Every open file was closed, once, and nothing else was. */
  ghost predicate AllClosed(writers: map<nat, HostWriter>, files: seq<HostWriter>, files': seq<HostWriter>) {
    exists handles :: Lists(handles, writers) && files' == files + FilesAt(writers, handles)
  }

  /** The files at the handles are closed, the others are still open. */
  ghost predicate Closing(all: map<nat, HostWriter>, open: map<nat, HostWriter>, handles: seq<nat>) {
    && (forall i, j :: 0 <= i < j < |handles| ==> handles[i] != handles[j])
    && (forall h :: h in all <==> h in handles || h in open)
    && (forall h :: h in open ==> h !in handles && open[h] == all[h])
  }

  lemma NothingClosed(all: map<nat, HostWriter>)
    ensures Closing(all, all, [])
  {
  }

  lemma ClosingMore(all: map<nat, HostWriter>, open: map<nat, HostWriter>, handles: seq<nat>, h: nat)
    requires Closing(all, open, handles) && h in open
    ensures Closing(all, open - {h}, handles + [h]) && h in all && open[h] == all[h]
  {
  }

  lemma AllAreClosed(all: map<nat, HostWriter>, handles: seq<nat>)
    requires Closing(all, map[], handles)
    ensures Lists(handles, all)
  {
  }

  lemma OneLess(writers: map<nat, HostWriter>, h: nat)
    requires h in writers
    ensures |writers - {h}| == |writers| - 1
  {
    assert |writers.Keys - {h}| == |writers.Keys| - 1 && (writers - {h}).Keys == writers.Keys - {h};
  }

  lemma NoFiles(writers: map<nat, HostWriter>)
    ensures FilesAt(writers, []) == []
  {
  }

  lemma FilesAtMore(writers: map<nat, HostWriter>, handles: seq<nat>, h: nat)
    requires h in writers
    ensures FilesAt(writers, handles + [h]) == FilesAt(writers, handles) + [writers[h]]
  {
    assert (handles + [h])[..|handles|] == handles;
  }

  class RunArtifactState {
    var next: nat
    var writers: map<nat, HostWriter>
    /** Files closed so far, with what they hold. */
    var files: seq<HostWriter>

    constructor ()
      ensures next == 0 && writers == map[] && files == []
    {
      next, writers, files := 0, map[], [];
    }

    ghost predicate Valid()
      reads this
    {
      forall h :: h in writers ==> 0 < h <= next && writers[h].size == |writers[h].content|
    }

    /** `openable` is whether the environment could open the artifact. */
    method Open(name: string, openable: bool) returns (handle: nat)
      requires Valid()
      modifies this
      ensures Valid() && files == old(files)
      ensures !openable ==> handle == 0 && writers == old(writers) && next == old(next)
      ensures openable ==> handle == next == old(next) + 1
      ensures openable ==> handle !in old(writers) && writers == old(writers)[handle := HostWriter(name, [], 0)]
    {
      if !openable { return 0; }
      next := next + 1;
      handle := next;
      writers := writers[handle := HostWriter(name, [], 0)];
    }

    method Write(handle: nat, data: Bytes, file: FileWrite) returns (r: WriteOutcome)
      requires Valid() && file.taken <= |data|
      modifies this
      ensures Valid() && files == old(files) && next == old(next)
      ensures handle !in old(writers) ==> r == UnknownHandle && writers == old(writers)
      ensures handle in old(writers) ==>
                var w := old(writers)[handle];
                && writers == old(writers)[handle := Extended(w, data[..file.taken])]
                && r == (if file.failed then FileFailed else if file.taken != |data| then ShortWrite else Accepted)
    {
      if handle !in writers { return UnknownHandle; }
      var w := writers[handle];
      writers := writers[handle := Extended(w, data[..file.taken])];
      if file.failed { return FileFailed; }
      if file.taken != |data| { return ShortWrite; }
      return Accepted;
    }

    /** The handle is forgotten; the size reported, unless closing the file fails, is the size of the file. */
    method Close(handle: nat, failed: bool) returns (r: CloseOutcome)
      requires Valid()
      modifies this
      ensures Valid() && writers == old(writers) - {handle}
      ensures handle in old(writers) ==>
                && files == old(files) + [old(writers)[handle]]
                && r == (if failed then CloseFailed else Closed(|old(writers)[handle].content|))
      ensures handle !in old(writers) ==> files == old(files) && r == NotOpen
    {
      if handle !in writers { return NotOpen; }
      var w := writers[handle];
      writers := writers - {handle};
      files := files + [w];
      if failed { return CloseFailed; }
      return Closed(w.size);
    }

    /** Every chunk of a stream written without failure: the file holds exactly its bytes. */
    method WriteChunks(handle: nat, chunks: seq<Chunk>)
      requires Valid() && handle in writers
      modifies this
      ensures Valid() && files == old(files)
      ensures writers == old(writers)[handle := Extended(old(writers)[handle], Joined(chunks))]
    {
      hide Joined;
      NothingJoined();
      assert chunks[..0] == [];
      ghost var w := writers[handle];
      NothingExtends(w);
      for i := 0 to |chunks|
        invariant Valid() && files == old(files) && handle in writers
        invariant writers == old(writers)[handle := Extended(w, Joined(chunks[..i]))]
      {
        var data := chunks[i].data;
        JoinedMore(chunks[..i], chunks[i]);
        assert chunks[..i + 1] == chunks[..i] + [chunks[i]] && data[..|data|] == data;
        var r := Write(handle, data, FileWrite(|data|, false));
        ExtendsMore(w, Joined(chunks[..i]), data);
      }
      assert chunks[..|chunks|] == chunks;
    }

    method CloseAll()
      requires Valid()
      modifies this
      ensures Valid() && writers == map[] && old(files) <= files && |files| == |old(files)| + |old(writers)|
      ensures AllClosed(old(writers), old(files), files)
    {
      hide FilesAt, Closing;
      NothingClosed(writers);
      ghost var handles: seq<nat> := [];
      assert FilesAt(writers, handles) == [] by { NoFiles(writers); }
      while writers != map[]
        invariant Valid() && old(files) <= files && |files| + |writers| == |old(files)| + |old(writers)|
        invariant Closing(old(writers), writers, handles)
        invariant files == old(files) + FilesAt(old(writers), handles)
        decreases |writers|
      {
        var h :| h in writers;
        ClosingMore(old(writers), writers, handles, h);
        FilesAtMore(old(writers), handles, h);
        handles := handles + [h];
        files := files + [writers[h]];
        OneLess(writers, h);
        writers := writers - {h};
      }
      AllAreClosed(old(writers), handles);
    }
  }

  // ---------------------------------------------------------------------- end to end

  function Marshalled(chunks: seq<Chunk>, encode: Chunk -> Bytes): seq<Bytes> {
    if chunks == [] then [] else [encode(chunks[0])] + Marshalled(chunks[1..], encode)
  }

  function Unmarshalled(payloads: seq<Bytes>, decode: Bytes -> Chunk): seq<Chunk> {
    if payloads == [] then [] else [decode(payloads[0])] + Unmarshalled(payloads[1..], decode)
  }

  lemma {:induction false} MarshalledBack(chunks: seq<Chunk>, encode: Chunk -> Bytes, decode: Bytes -> Chunk, bound: nat)
    requires forall i :: 0 <= i < |chunks| ==> decode(encode(chunks[i])) == chunks[i] && |encode(chunks[i])| <= bound
    ensures Unmarshalled(Marshalled(chunks, encode), decode) == chunks
    ensures forall p :: p in Marshalled(chunks, encode) ==> |p| <= bound
  {
    if chunks != [] {
      MarshalledBack(chunks[1..], encode, decode, bound);
      assert chunks == [chunks[0]] + chunks[1..];
    }
  }

  /**
    For any payloads written to one artifact, with a marshalling of its chunks that
    can be undone and adds at most `overhead` bytes to their data, the host reads
    frames within its limit, and their bytes are those written.
   */
  lemma TransferIsLossless(handle: string, payloads: seq<Bytes>, encode: Chunk -> Bytes, decode: Bytes -> Chunk, overhead: nat)
    requires forall c :: c in Written(handle, 0, payloads) ==> decode(encode(c)) == c && |encode(c)| <= |c.data| + overhead
    requires CHUNK_MAX_BYTES + overhead <= READER_LIMIT
    ensures var chunks := Written(handle, 0, payloads);
            var (read, end) := ReadAll(WriteAll(Marshalled(chunks, encode)), READER_LIMIT);
            && end == Ended && Unmarshalled(read, decode) == chunks && Numbered(chunks, handle, 0)
            && Joined(Unmarshalled(read, decode)) == Concat(payloads)
  {
    var chunks := Written(handle, 0, payloads);
    WrittenCarriesAll(handle, 0, payloads);
    MarshalledBack(chunks, encode, decode, READER_LIMIT);
    StreamRoundTrip(Marshalled(chunks, encode), READER_LIMIT);
  }

  /**
    The host's side of one artifact, its file working: open it, read frames to the
    end, write their chunks, close it. If the stream is what the plugin's writer
    sent, the file holds exactly the bytes written, and their number is reported.
   */
  method Receive(state: RunArtifactState, name: string, stream: Bytes, decode: Bytes -> Chunk,
                 ghost handle: string, ghost payloads: seq<Bytes>, ghost encode: Chunk -> Bytes, ghost overhead: nat)
    returns (closed: CloseOutcome)
    requires state.Valid() && stream == WriteAll(Marshalled(Written(handle, 0, payloads), encode))
    requires forall c :: c in Written(handle, 0, payloads) ==> decode(encode(c)) == c && |encode(c)| <= |c.data| + overhead
    requires CHUNK_MAX_BYTES + overhead <= READER_LIMIT
    modifies state
    ensures state.Valid() && state.writers == old(state.writers)
    ensures state.files == old(state.files) + [HostWriter(name, Concat(payloads), |Concat(payloads)|)]
    ensures closed == Closed(|Concat(payloads)|)
  {
    hide Written, WriteAll, Marshalled, ReadAll, Joined, Unmarshalled, Concat, Numbered;
    TransferIsLossless(handle, payloads, encode, decode, overhead);
    var h := state.Open(name, true);
    var frames := ReadAll(stream, READER_LIMIT).0;
    state.WriteChunks(h, Unmarshalled(frames, decode));
    closed := state.Close(h, false);
    assert [] + Concat(payloads) == Concat(payloads);
    Reopened(old(state.writers), h, Extended(HostWriter(name, [], 0), Concat(payloads)));
  }

  lemma Reopened(writers: map<nat, HostWriter>, h: nat, w: HostWriter)
    requires h !in writers
    ensures writers[h := w] - {h} == writers
  {
  }
}

/** Storing a command's output as numbered chunks within the policy's limits, and
    publishing the result that names them. */
module Capture {
  import opened Wrappers
  import opened Wire
  import opened Protocol

  type Bytes = seq<bv8>

  datatype Stream = Stdout | Stderr

  /** What a pipe reader put on the queue: at most one read's worth of a stream. */
  datatype Block = Block(stream: Stream, data: Bytes)

  const CHUNK_BYTES := 65536
  const CHUNKS := 4096

  predicate AreBlocks(blocks: seq<Block>) {
    forall i :: 0 <= i < |blocks| ==> 0 < |blocks[i].data| <= CHUNK_BYTES
  }

  /** The blocks queued on one stream, in order. */
  function Sent(blocks: seq<Block>, stream: Stream): seq<Bytes> {
    if blocks == [] then []
    else Sent(blocks[..|blocks| - 1], stream) + (if blocks[|blocks| - 1].stream == stream then [blocks[|blocks| - 1].data] else [])
  }

  function Joined(chunks: seq<Bytes>): Bytes {
    if chunks == [] then [] else Joined(chunks[..|chunks| - 1]) + chunks[|chunks| - 1]
  }

  /** The bytes queued on one stream. */
  function Queued(blocks: seq<Block>, stream: Stream): Bytes {
    Joined(Sent(blocks, stream))
  }

  predicate AreChunkBytes(chunks: seq<Bytes>) {
    |chunks| <= CHUNKS && forall i :: 0 <= i < |chunks| ==> 0 < |chunks[i]| <= CHUNK_BYTES
  }

  lemma SentAppend(blocks: seq<Block>, block: Block, stream: Stream)
    ensures Sent(blocks + [block], stream) == Sent(blocks, stream) + (if block.stream == stream then [block.data] else [])
    ensures Sent([], stream) == []
  {
    assert (blocks + [block])[..|blocks|] == blocks;
  }

  lemma JoinedAppend(chunks: seq<Bytes>, chunk: Bytes)
    ensures Joined(chunks + [chunk]) == Joined(chunks) + chunk
    ensures Joined([]) == []
  {
    assert (chunks + [chunk])[..|chunks|] == chunks;
  }

  lemma {:induction false} SentIsPrefix(blocks: seq<Block>, cut: nat, stream: Stream)
    requires cut <= |blocks|
    ensures Sent(blocks[..cut], stream) <= Sent(blocks, stream)
    ensures AreBlocks(blocks) ==> forall k :: 0 <= k < |Sent(blocks, stream)| ==> 0 < |Sent(blocks, stream)[k]| <= CHUNK_BYTES
    decreases |blocks|
  {
    if cut < |blocks| {
      var past := blocks[..|blocks| - 1];
      assert past[..cut] == blocks[..cut];
      SentIsPrefix(past, cut, stream);
    } else {
      assert blocks[..cut] == blocks;
      if blocks != [] { SentIsPrefix(blocks[..|blocks| - 1], 0, stream); }
    }
  }

  function Min(a: nat, b: nat): nat {
    if a <= b then a else b
  }

  /** What is kept of the blocks of one stream: the first ones, whole, but for the last
      one that is kept if the budget is spent. */
  predicate Kept(sent: seq<Bytes>, chunks: seq<Bytes>, spent: bool) {
    && |chunks| <= |sent| && AreChunkBytes(chunks)
    && forall k :: 0 <= k < |chunks| ==> chunks[k] == sent[k] || (spent && k == |chunks| - 1 && chunks[k] < sent[k])
  }

  /** Kept blocks are a prefix of the bytes, and all of them only if every block is whole. */
  lemma {:induction false} KeptIsPrefix(sent: seq<Bytes>, chunks: seq<Bytes>, spent: bool)
    requires Kept(sent, chunks, spent) && forall k :: 0 <= k < |sent| ==> |sent[k]| > 0
    ensures Joined(chunks) <= Joined(sent)
    ensures Joined(chunks) == Joined(sent) <==> chunks == sent
  {
    if |chunks| < |sent| {
      var fewer := sent[..|sent| - 1];
      KeptIsPrefix(fewer, chunks, spent);
      assert Joined(sent) == Joined(fewer) + sent[|sent| - 1];
    } else if sent != [] {
      var n := |sent| - 1;
      assert chunks[..n] == sent[..n];
      assert Joined(sent) == Joined(sent[..n]) + sent[n] && Joined(chunks) == Joined(sent[..n]) + chunks[n];
      if chunks[n] == sent[n] { assert chunks == sent; }
    }
  }

  datatype Captured = Captured(out: seq<Bytes>, err: seq<Bytes>, truncated: bool)

  function ChunksOf(c: Captured, stream: Stream): seq<Bytes> {
    if stream.Stdout? then c.out else c.err
  }

  /** Up to a cut in the queue all blocks are kept, at most so many of each stream, and
      before the budget is spent there is no cut. */
  ghost predicate Upto(blocks: seq<Block>, cut: nat, stream: Stream, chunks: seq<Bytes>, spent: bool) {
    cut <= |blocks| && |chunks| == Min(CHUNKS, |Sent(blocks[..cut], stream)|) && (!spent ==> cut == |blocks|)
  }

  /** One cut for both streams. */
  ghost predicate CutOff(blocks: seq<Block>, c: Captured, spent: bool) {
    exists cut: nat :: Upto(blocks, cut, Stdout, c.out, spent) && Upto(blocks, cut, Stderr, c.err, spent)
  }

  /** The output loop: stores each block in queue order, cut to what the policy still
      allows. For every interleaving each stored stream is a prefix of what was queued,
      block by block, within the limits, and nothing is left out while there is room. */
  method StoreOutput(blocks: seq<Block>, maxBytes: nat) returns (c: Captured, written: nat)
    requires AreBlocks(blocks)
    ensures written == |Joined(c.out)| + |Joined(c.err)| <= maxBytes
    ensures forall stream ::
              && Kept(Sent(blocks, stream), ChunksOf(c, stream), written == maxBytes)
              && Joined(ChunksOf(c, stream)) <= Queued(blocks, stream)
              && (Joined(ChunksOf(c, stream)) != Queued(blocks, stream) ==> written == maxBytes || |ChunksOf(c, stream)| == CHUNKS)
    ensures !c.truncated <==> forall stream :: Joined(ChunksOf(c, stream)) == Queued(blocks, stream)
    ensures CutOff(blocks, c, written == maxBytes)
    ensures |Queued(blocks, Stdout)| + |Queued(blocks, Stderr)| <= maxBytes && (forall stream :: |Sent(blocks, stream)| <= CHUNKS) ==>
              !c.truncated && forall stream :: ChunksOf(c, stream) == Sent(blocks, stream)
  {
    hide Sent, Joined, AreChunkBytes, Kept, Upto, Queued, ChunksOf, CutOff;
    var out: seq<Bytes>, err: seq<Bytes>, truncated := [], [], false;
    written := 0;
    ghost var cut: nat := 0;
    NothingKept(Stdout, maxBytes == 0);
    NothingKept(Stderr, maxBytes == 0);
    for i := 0 to |blocks|
      invariant written == |Joined(out)| + |Joined(err)| <= maxBytes
      invariant Kept(Sent(blocks[..i], Stdout), out, written == maxBytes) && Upto(blocks[..i], cut, Stdout, out, written == maxBytes)
      invariant Kept(Sent(blocks[..i], Stderr), err, written == maxBytes) && Upto(blocks[..i], cut, Stderr, err, written == maxBytes)
      invariant truncated <==> out != Sent(blocks[..i], Stdout) || err != Sent(blocks[..i], Stderr)
    {
      var b := blocks[i];
      assert blocks[..i + 1] == blocks[..i] + [b];
      ghost var spent := written == maxBytes;
      var chunks := if b.stream.Stdout? then out else err;
      var allowed := if |chunks| >= CHUNKS then 0 else maxBytes - written;
      ghost var take := if |b.data| <= allowed then |b.data| else allowed;
      KeepStep(blocks[..i], b, cut, Stdout, out, take, spent, written + take == maxBytes);
      KeepStep(blocks[..i], b, cut, Stderr, err, take, spent, written + take == maxBytes);
      if allowed > 0 {
        var keep := if |b.data| <= allowed then |b.data| else allowed;
        JoinedAppend(chunks, b.data[..keep]);
        if b.stream.Stdout? {
          out := out + [b.data[..keep]];
        } else {
          err := err + [b.data[..keep]];
        }
        written := written + keep;
      }
      if |b.data| > allowed { truncated := true; }
      cut := if spent then cut else i + 1;
    }
    assert blocks[..|blocks|] == blocks;
    c := Captured(out, err, truncated);
    WhatIsStored(blocks, c, cut, written, maxBytes);
  }

  /** What the loop's invariant means in the end. */
  lemma WhatIsStored(blocks: seq<Block>, c: Captured, cut: nat, written: nat, maxBytes: nat)
    requires AreBlocks(blocks) && written == |Joined(c.out)| + |Joined(c.err)| <= maxBytes
    requires Kept(Sent(blocks, Stdout), c.out, written == maxBytes) && Upto(blocks, cut, Stdout, c.out, written == maxBytes)
    requires Kept(Sent(blocks, Stderr), c.err, written == maxBytes) && Upto(blocks, cut, Stderr, c.err, written == maxBytes)
    requires c.truncated <==> c.out != Sent(blocks, Stdout) || c.err != Sent(blocks, Stderr)
    ensures written == |Joined(c.out)| + |Joined(c.err)| <= maxBytes
    ensures forall stream ::
              && Kept(Sent(blocks, stream), ChunksOf(c, stream), written == maxBytes)
              && Joined(ChunksOf(c, stream)) <= Queued(blocks, stream)
              && (Joined(ChunksOf(c, stream)) != Queued(blocks, stream) ==> written == maxBytes || |ChunksOf(c, stream)| == CHUNKS)
    ensures !c.truncated <==> forall stream :: Joined(ChunksOf(c, stream)) == Queued(blocks, stream)
    ensures CutOff(blocks, c, written == maxBytes)
    ensures |Queued(blocks, Stdout)| + |Queued(blocks, Stderr)| <= maxBytes && (forall stream :: |Sent(blocks, stream)| <= CHUNKS) ==>
              !c.truncated && forall stream :: ChunksOf(c, stream) == Sent(blocks, stream)
  {
    hide Queued, Sent, Joined, AreChunkBytes, Kept, Upto;
    KeptFacts(blocks, Stdout, cut, c.out, written == maxBytes);
    KeptFacts(blocks, Stderr, cut, c.err, written == maxBytes);
    assert ChunksOf(c, Stdout) == c.out && ChunksOf(c, Stderr) == c.err;
  }

  /** One block: kept as far as the budget goes, or left out. */
  lemma KeepStep(past: seq<Block>, b: Block, cut: nat, stream: Stream, chunks: seq<Bytes>, keep: nat, spent: bool, spent': bool)
    requires Kept(Sent(past, stream), chunks, spent) && Upto(past, cut, stream, chunks, spent)
    requires keep <= |b.data| && 0 < |b.data| <= CHUNK_BYTES && (spent ==> spent' && keep == 0)
    requires b.stream == stream && !spent ==> (keep == 0 <==> |chunks| >= CHUNKS) && (0 < keep < |b.data| ==> spent')
    ensures var chunks' := if b.stream == stream && keep > 0 then chunks + [b.data[..keep]] else chunks;
            && Kept(Sent(past + [b], stream), chunks', spent')
            && Upto(past + [b], if spent then cut else |past| + 1, stream, chunks', spent')
            && (chunks' == Sent(past + [b], stream) <==> chunks == Sent(past, stream) && (b.stream == stream ==> keep == |b.data|))
  {
    hide Sent;
    SentAppend(past, b, stream);
    if spent {
      assert (past + [b])[..cut] == past[..cut];
    } else {
      assert past[..cut] == past && (past + [b])[..|past| + 1] == past + [b];
    }
    var sent := Sent(past, stream);
    if b.stream == stream && keep > 0 {
      assert |chunks| == |sent|;
      assert chunks == sent;
      if keep == |b.data| { assert b.data[..keep] == b.data; }
      var chunks' := chunks + [b.data[..keep]];
      assert chunks'[|chunks|] == b.data[..keep] && (sent + [b.data])[|sent|] == b.data;
    }
  }

  lemma NothingKept(stream: Stream, spent: bool)
    ensures Kept(Sent([], stream), [], spent) && Upto([], 0, stream, [], spent) && Sent([], stream) == []
    ensures Joined([]) == []
  {
  }

  /** What the loop's invariant means for one stream. */
  lemma KeptFacts(blocks: seq<Block>, stream: Stream, cut: nat, chunks: seq<Bytes>, spent: bool)
    requires AreBlocks(blocks) && Kept(Sent(blocks, stream), chunks, spent) && Upto(blocks, cut, stream, chunks, spent)
    ensures AreChunkBytes(chunks) && Joined(chunks) <= Queued(blocks, stream)
    ensures Joined(chunks) == Queued(blocks, stream) <==> chunks == Sent(blocks, stream)
    ensures chunks != Sent(blocks, stream) ==> spent || |chunks| == CHUNKS < |Sent(blocks, stream)|
  {
    hide Sent, Joined, AreChunkBytes;
    SentIsPrefix(blocks, cut, stream);
    KeptIsPrefix(Sent(blocks, stream), chunks, spent);
    if !spent {
      assert blocks[..cut] == blocks;
      if |chunks| == |Sent(blocks, stream)| { assert chunks == Sent(blocks, stream); }
    }
  }

  // ------------------------------------------------------------ the result and its pointer

  function EntryOf(sha: Bytes -> Digest, chunk: Bytes): Json {
    Obj(map["size" := Int(|chunk|), "sha256" := Hex(sha(chunk))])
  }

  function Entries(sha: Bytes -> Digest, chunks: seq<Bytes>): seq<Json> {
    seq(|chunks|, i requires 0 <= i < |chunks| => EntryOf(sha, chunks[i]))
  }

  /** The result object: identity, outcome, and the manifest of the stored chunks. */
  function ResultOf(sha: Bytes -> Digest, outcome: map<string, Json>, job: string, watcher: Json, fence: Json, c: Captured): map<string, Json> {
    outcome["job_id" := Str(job)]["watcher_id" := watcher]["fence" := fence]
           ["stdout_chunks" := Int(|c.out|)]["stderr_chunks" := Int(|c.err|)]
           ["streams" := Obj(map["stdout" := Arr(Entries(sha, c.out)), "stderr" := Arr(Entries(sha, c.err))])]
  }

  /** The pointer that selects a generation of the result. */
  function PointerTo(generation: string, m: map<string, Json>, at: int): Blob {
    Canon(Obj(map["result_file" := Str(generation), "job_id" := Get(m, "job_id"), "watcher_id" := Get(m, "watcher_id"),
                  "fence" := Get(m, "fence"), "result_sha256" := Hex(Sha(Canon(Obj(m)))), "at_ns" := Int(at)]))
  }

  lemma EntriesAreChunks(sha: Bytes -> Digest, chunks: seq<Bytes>)
    requires AreChunkBytes(chunks)
    ensures AreChunks(Int(|chunks|), Arr(Entries(sha, chunks)))
  {
    forall i | 0 <= i < |chunks| ensures IsChunk(Entries(sha, chunks)[i]) {
      assert Entries(sha, chunks)[i] == EntryOf(sha, chunks[i]);
    }
  }

  /** The published result of any captured output is what a reader selects, exactly when
      the two files are within the reader's size limits. */
  lemma PublishedIsRead(sha: Bytes -> Digest, length: Blob -> nat, outcome: map<string, Json>, job: string, watcher: Json, fence: Json,
                        c: Captured, generation: string, at: int, dir: Dir)
    requires AreChunkBytes(c.out) && AreChunkBytes(c.err) && SafeName(generation)
    requires var m := ResultOf(sha, outcome, job, watcher, fence, c);
             && generation in dir && dir[generation] == Canon(Obj(m)) && "FINAL" in dir && dir["FINAL"] == PointerTo(generation, m, at)
    ensures var m := ResultOf(sha, outcome, job, watcher, fence, c);
            IsFinal(length, dir, job, m) <==> length(dir["FINAL"]) <= 4096 && length(dir[generation]) <= RESULT_LIMIT
  {
    hide SafeName, AreChunks, AreChunkBytes;
    var m := ResultOf(sha, outcome, job, watcher, fence, c);
    var final := ParseObject(dir["FINAL"]).value;
    assert Get(final, "result_file") == Str(generation) && Get(final, "result_sha256") == Hex(Sha(dir[generation]));
    assert Get(final, "job_id") == Get(m, "job_id") == Str(job);
    EntriesAreChunks(sha, c.out);
    EntriesAreChunks(sha, c.err);
    var streams := StreamsOf(m);
    assert "stdout" + "_chunks" == "stdout_chunks" && "stderr" + "_chunks" == "stderr_chunks";
    assert IsStream(m, streams.fields, "stdout") && IsStream(m, streams.fields, "stderr");
  }

  // ------------------------------------------------------------ the first result wins

  /** The result directory, and the generations that publishers have written but not yet
      selected. All files are created exclusively and never changed. */
  datatype Shelf = Shelf(dir: Dir, pending: map<string, map<string, Json>>)

  datatype Write =
    | Generation(name: string, m: map<string, Json>)
    | Select(name: string, at: int)
    | Discard(name: string)                 // the publisher dies or gives up
    | Chunk(name: string, body: Blob)       // any other file

  predicate Shelve(s: Shelf, w: Write, s': Shelf) {
    match w
    case Generation(name, m) =>
      name !in s.dir && name != "FINAL" && s' == Shelf(s.dir[name := Canon(Obj(m))], s.pending[name := m])
    case Select(name, at) =>
      "FINAL" !in s.dir && name in s.pending && s' == Shelf(s.dir["FINAL" := PointerTo(name, s.pending[name], at)], s.pending - {name})
    case Discard(name) => s' == s.(pending := s.pending - {name})
    case Chunk(name, body) => name !in s.dir && name != "FINAL" && s' == s.(dir := s.dir[name := body])
  }

  /** The result that the directory selects. */
  function Selected(dir: Dir): Option<map<string, Json>> {
    if "FINAL" !in dir || ParseObject(dir["FINAL"]).None? then None
    else
      var final := ParseObject(dir["FINAL"]).value;
      if !Get(final, "result_file").Str? || Get(final, "result_file").s !in dir then None
      else
        var body := dir[Get(final, "result_file").s];
        if Get(final, "result_sha256") != Hex(Sha(body)) then None else ParseObject(body)
  }

  predicate ShelfOk(s: Shelf) {
    && (forall name :: name in s.pending ==> name != "FINAL" && name in s.dir && s.dir[name] == Canon(Obj(s.pending[name])))
    && ("FINAL" in s.dir ==> Selected(s.dir).Some?)
  }

  lemma ShelveKeeps(s: Shelf, w: Write, s': Shelf)
    requires ShelfOk(s) && Shelve(s, w, s')
    ensures ShelfOk(s')
    ensures forall n :: n in s.dir ==> n in s'.dir && s'.dir[n] == s.dir[n]
    ensures Selected(s.dir).Some? ==> Selected(s'.dir) == Selected(s.dir)
    ensures w.Select? ==> Selected(s'.dir) == Some(s.pending[w.name])
  {
    if w.Select? {
      var final := ParseObject(s'.dir["FINAL"]).value;
      assert Get(final, "result_file") == Str(w.name);
    }
  }

  ghost predicate CanShelve(s: Shelf, s': Shelf) {
    exists w: Write :: Shelve(s, w, s')
  }

  ghost predicate ShelfRun(run: seq<Shelf>) {
    |run| > 0 &&
    if |run| == 1 then run[0] == Shelf(map[], map[])
    else ShelfRun(run[..|run| - 1]) && CanShelve(run[|run| - 2], run[|run| - 1])
  }

  /** A pointer never shows before its generation is complete, and once there is one, no
      later publisher changes which result is selected. */
  lemma {:induction false} FirstResultWins(run: seq<Shelf>, a: nat, b: nat)
    requires ShelfRun(run) && a <= b < |run|
    ensures ShelfOk(run[a]) && ShelfOk(run[b])
    ensures "FINAL" in run[a].dir ==>
              && Selected(run[a].dir).Some? && Selected(run[b].dir) == Selected(run[a].dir)
              && "FINAL" in run[b].dir && run[b].dir["FINAL"] == run[a].dir["FINAL"]
    decreases |run|
  {
    hide Shelve, Selected;
    if |run| > 1 {
      var past := run[..|run| - 1];
      if b < |run| - 1 {
        FirstResultWins(past, a, b);
      } else {
        FirstResultWins(past, if a < b then a else b - 1, b - 1);
        var w: Write :| Shelve(run[b - 1], w, run[b]);
        ShelveKeeps(run[b - 1], w, run[b]);
      }
    }
  }

  class ResultDir {
    var dir: Dir

    constructor ()
      ensures dir == map[]
    {
      dir := map[];
    }

    /** The generation first, then the pointer; each only if the name is free. */
    method PublishFinal(generation: string, m: map<string, Json>, at: int) returns (published: bool)
      requires generation != "FINAL"
      modifies this
      ensures published <==> "FINAL" !in old(dir) && generation !in old(dir)
      ensures published ==> dir == old(dir)[generation := Canon(Obj(m))]["FINAL" := PointerTo(generation, m, at)]
      ensures published ==> Selected(dir) == Some(m)
      ensures !published ==> dir == old(dir)
    {
      if "FINAL" in dir { return false; }
      if generation in dir { return false; }
      dir := dir[generation := Canon(Obj(m))];
      dir := dir["FINAL" := PointerTo(generation, m, at)];
      assert Get(ParseObject(dir["FINAL"]).value, "result_file") == Str(generation);
      return true;
    }
  }
}

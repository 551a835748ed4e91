/** Waiting for a result while streaming provisional output: chunk files may change or
    vanish between any two reads. */
module Wait {
  import opened Wrappers
  import opened Wire
  import opened Capture

  /** One look at the job: its result if a consistent one is selected, or whether one is
      still propagating. */
  datatype Poll = Poll(propagating: bool, result: Option<map<string, Json>>)

  datatype Outcome =
    | Done(result: map<string, Json>)
    | Propagating        // the chunks did not become readable in time
    | TimedOut
    | Corrupt            // what was shown is not what the result binds

  const BURST := 16

  /** The manifest entries of a stream; none when the result does not mention it. */
  function EntriesIn(m: map<string, Json>, stream: Stream): seq<Json> {
    var streams := Get(m, "streams");
    var entries := if streams.Obj? then Get(streams.fields, if stream.Stdout? then "stdout" else "stderr") else Null;
    if entries.Arr? then entries.items else []
  }

  /** The entry names exactly this chunk, by size and digest. */
  predicate EntryBinds(sha: Bytes -> Digest, entry: Json, chunk: Bytes) {
    entry.Obj? && Get(entry.fields, "size") == Int(|chunk|) && Get(entry.fields, "sha256") == Hex(sha(chunk))
  }

  /** The manifest binds these bytes: chunk by chunk, in order, nothing else. */
  predicate Binds(sha: Bytes -> Digest, entries: seq<Json>, chunks: seq<Bytes>) {
    |entries| == |chunks| && forall i :: 0 <= i < |chunks| ==> EntryBinds(sha, entries[i], chunks[i])
  }

  ghost predicate Injective(sha: Bytes -> Digest) {
    forall a, b :: sha(a) == sha(b) ==> a == b
  }

  /** Under an injective digest a manifest binds at most one sequence of chunks. */
  lemma {:induction false} BoundOnce(sha: Bytes -> Digest, entries: seq<Json>, chunks: seq<Bytes>, chunks': seq<Bytes>)
    requires Injective(sha) && Binds(sha, entries, chunks) && Binds(sha, entries, chunks')
    ensures chunks == chunks'
  {
    forall i | 0 <= i < |chunks| ensures chunks[i] == chunks'[i] {
      assert EntryBinds(sha, entries[i], chunks[i]) && EntryBinds(sha, entries[i], chunks'[i]);
    }
  }

  lemma OwnEntriesBind(sha: Bytes -> Digest, chunks: seq<Bytes>)
    ensures Binds(sha, Entries(sha, chunks), chunks)
  {
  }

  lemma BindMore(sha: Bytes -> Digest, entries: seq<Json>, chunks: seq<Bytes>, chunk: Bytes)
    requires |chunks| < |entries| && Binds(sha, entries[..|chunks|], chunks) && EntryBinds(sha, entries[|chunks|], chunk)
    ensures Binds(sha, entries[..|chunks| + 1], chunks + [chunk])
    ensures Joined(chunks + [chunk]) == Joined(chunks) + chunk
  {
    hide EntryBinds;
    assert (chunks + [chunk])[..|chunks|] == chunks;
    assert forall i :: 0 <= i < |chunks| ==> entries[..|chunks| + 1][i] == entries[..|chunks|][i];
  }

  /** The chunk files of a stream hold these chunks, as far as they can be read, and from
      some look on all of them can. */
  ghost predicate Serves(look: (nat, nat) -> Option<Bytes>, truth: seq<Bytes>, from: nat) {
    && AreChunkBytes(truth)
    && forall t: nat, k: nat {:trigger look(t, k)} ::
         if k < |truth| then look(t, k) == Some(truth[k]) || (t < from && look(t, k).None?) else look(t, k).None?
  }

  function Until(from: nat, clock: nat): nat {
    if clock < from then from - clock else 0
  }

  lemma Served(sha: Bytes -> Digest, look: (nat, nat) -> Option<Bytes>, truth: seq<Bytes>, from: nat, t: nat, k: nat)
    requires Serves(look, truth, from) && k < |truth|
    ensures look(t, k) == Some(truth[k]) || (t < from && look(t, k).None?)
    ensures |truth[k]| <= CHUNK_BYTES && |Entries(sha, truth)| == |truth| && EntryBinds(sha, Entries(sha, truth)[k], truth[k])
  {
  }

  /** Some look in this time saw this chunk, within its bound. */
  ghost predicate WasSeen(look: (nat, nat) -> Option<Bytes>, from: nat, to: nat, k: nat, chunk: Bytes) {
    |chunk| <= CHUNK_BYTES && exists t: nat {:trigger look(t, k)} :: from <= t < to && look(t, k) == Some(chunk)
  }

  lemma SeenOn(look: (nat, nat) -> Option<Bytes>, from: nat, t: nat, to: nat)
    requires from <= t < to
    ensures forall k: nat, chunk {:trigger WasSeen(look, from, t, k, chunk)} :: WasSeen(look, from, t, k, chunk) ==> WasSeen(look, from, to, k, chunk)
    ensures forall k: nat {:trigger look(t, k)} :: look(t, k).Some? && |look(t, k).value| <= CHUNK_BYTES ==> WasSeen(look, from, to, k, look(t, k).value)
  {
  }

  lemma ShowsNext(look: (nat, nat) -> Option<Bytes>, truth: seq<Bytes>, from: nat, t: nat, chunks: seq<Bytes>, data: Bytes)
    requires look(t, |chunks|) == Some(data)
    ensures Serves(look, truth, from) && chunks <= truth ==> chunks + [data] <= truth
  {
  }

  lemma EntriesPrefix(sha: Bytes -> Digest, chunks: seq<Bytes>, truth: seq<Bytes>)
    ensures |Entries(sha, truth)| == |truth|
    ensures chunks <= truth ==> Entries(sha, chunks) == Entries(sha, truth)[..|chunks|]
  {
  }

  /** One output stream of the waiting client: how many chunks were shown or checked, what
      their entries would be, and the bytes written. */
  class Tail {
    var count: nat
    var observed: seq<Json>
    var written: Bytes
    ghost var chunks: seq<Bytes>

    ghost predicate Valid(sha: Bytes -> Digest)
      reads this
    {
      count == |chunks| && observed == Entries(sha, chunks) && written == Joined(chunks)
    }

    constructor ()
      ensures forall sha :: Valid(sha)
      ensures count == 0 && written == []
    {
      count, observed, written := 0, [], [];
      chunks := [];
    }

    /** Shows what is there, at most a burst, without believing it. */
    method Follow(sha: Bytes -> Digest, look: (nat, nat) -> Option<Bytes>, clock: nat, ghost truth: seq<Bytes>, ghost from: nat) returns (after: nat)
      requires Valid(sha)
      modifies this
      ensures Valid(sha)
      ensures old(chunks) <= chunks && old(written) <= written && old(observed) <= observed
      ensures old(count) <= count <= old(count) + BURST && (old(count) <= CHUNKS ==> count <= CHUNKS)
      ensures forall i :: old(count) <= i < count ==> WasSeen(look, clock, after, i, chunks[i])
      ensures Serves(look, truth, from) && old(chunks) <= truth ==> chunks <= truth
    {
      hide Serves, Entries, EntryOf, Joined, WasSeen;
      after := clock;
      for i := 0 to BURST
        invariant Valid(sha) && clock <= after
        invariant old(chunks) <= chunks && old(written) <= written && old(observed) <= observed
        invariant old(count) <= count <= old(count) + i && (old(count) <= CHUNKS ==> count <= CHUNKS)
        invariant forall k :: old(count) <= k < count ==> WasSeen(look, clock, after, k, chunks[k])
        invariant Serves(look, truth, from) && old(chunks) <= truth ==> chunks <= truth
      {
        if count >= CHUNKS { return; }
        var data := look(after, count);
        after := after + 1;
        SeenOn(look, clock, after - 1, after);
        if data.None? || |data.value| > CHUNK_BYTES { return; }
        Add(sha, data.value);
        ShowsNext(look, truth, from, after - 1, chunks, data.value);
        written := written + data.value;
        observed := observed + [EntryOf(sha, data.value)];
        count := count + 1;
        chunks := chunks + [data.value];
      }
    }

    lemma Add(sha: Bytes -> Digest, data: Bytes)
      requires Valid(sha)
      ensures Entries(sha, chunks + [data]) == observed + [EntryOf(sha, data)]
      ensures Joined(chunks + [data]) == written + data
    {
      assert (chunks + [data])[..|chunks|] == chunks;
    }

    /** Checks what was shown against the manifest, then reads and checks the rest; each
        chunk is written only after it matched its entry. With patience until the chunks are
        there, it succeeds. */
    method Complete(sha: Bytes -> Digest, entries: seq<Json>, stream: bool, look: (nat, nat) -> Option<Bytes>, clock: nat, patience: nat,
                    ghost truth: seq<Bytes>, ghost from: nat)
        returns (verdict: Option<Outcome>, after: nat, left: nat, ghost all: seq<Bytes>)
      requires Valid(sha) && (!stream ==> count == 0)
      modifies this
      ensures verdict.None? ==> Binds(sha, entries, all) && written == if stream then Joined(all) else old(written)
      ensures verdict.Some? ==> verdict.value in {Propagating, Corrupt}
      ensures old(observed) != entries[..if old(count) <= |entries| then old(count) else |entries|] <==> verdict == Some(Corrupt)
      ensures left <= patience
      ensures !stream ==> written == old(written)
      ensures Serves(look, truth, from) && entries == Entries(sha, truth) && old(chunks) <= truth && patience >= Until(from, clock) ==>
                verdict.None? && all == truth && left >= Until(from, after)
    {
      hide Entries, EntryOf, Binds, EntryBinds, Joined;
      after, left, all := clock, patience, chunks;
      EntriesPrefix(sha, chunks, truth);
      if observed != entries[..if count <= |entries| then count else |entries|] { return Some(Corrupt), after, left, all; }
      Shown(sha, entries);
      ghost var steady := Serves(look, truth, from) && entries == Entries(sha, truth) && chunks <= truth && patience >= Until(from, clock);
      while count < |entries|
        invariant count == |all| <= |entries|
        invariant Binds(sha, entries[..count], all)
        invariant written == if stream then Joined(all) else old(written)
        invariant left <= patience
        invariant steady ==> all <= truth && left >= Until(from, after)
        decreases |entries| - count, left
      {
        var data := look(after, count);
        if steady { Served(sha, look, truth, from, after, count); }
        after := after + 1;
        if data.None? || |data.value| > CHUNK_BYTES || !EntryBinds(sha, entries[count], data.value) {
          if left == 0 { return Some(Propagating), after, left, all; }
          left := left - 1;
        } else {
          BindMore(sha, entries, all, data.value);
          if stream { written := written + data.value; }
          all := all + [data.value];
          count := count + 1;
        }
      }
      assert entries[..count] == entries;
      return None, after, left, all;
    }

    lemma Shown(sha: Bytes -> Digest, entries: seq<Json>)
      requires Valid(sha) && observed == entries[..if count <= |entries| then count else |entries|]
      ensures count <= |entries| && Binds(sha, entries[..count], chunks)
    {
      assert |observed| == count;
      forall i | 0 <= i < count ensures EntryBinds(sha, entries[..count][i], chunks[i]) {
        assert observed[i] == EntryOf(sha, chunks[i]);
      }
    }
  }

  /** The result of the first look that has one. */
  function FirstResult(polls: seq<Poll>): Option<map<string, Json>> {
    if polls == [] then None else if polls[0].result.Some? then polls[0].result else FirstResult(polls[1..])
  }

  /** What one stream's files show. */
  function LooksAt(look: (nat, Stream, nat) -> Option<Bytes>, stream: Stream): (nat, nat) -> Option<Bytes> {
    (t: nat, k: nat) => look(t, stream, k)
  }

  /** Polls until a result is selected and every chunk it names was read with matching
      size and digest, whatever the chunk files do in the meantime. A result is returned
      only if the bytes written to each stream, shown early or checked first, are exactly
      the chunks it binds, in order. If the files hold the chunks that the first selected
      result names, as far as they can be read, and all of them within its patience, that
      result is returned. */
  method WaitFor(sha: Bytes -> Digest, stream: bool, polls: seq<Poll>, look: (nat, Stream, nat) -> Option<Bytes>, patience: nat,
                 ghost truth: Captured, ghost from: nat)
      returns (outcome: Outcome, out: Bytes, err: Bytes, ghost outChunks: seq<Bytes>, ghost errChunks: seq<Bytes>)
    ensures outcome.Done? ==> Some(outcome.result) == FirstResult(polls)
    ensures outcome.TimedOut? <==> FirstResult(polls).None?
    ensures outcome.Done? ==>
              Binds(sha, EntriesIn(outcome.result, Stdout), outChunks) && Binds(sha, EntriesIn(outcome.result, Stderr), errChunks)
    ensures outcome.Done? && stream ==> out == Joined(outChunks) && err == Joined(errChunks)
    ensures !stream ==> out == [] && err == []
    ensures Serves(LooksAt(look, Stdout), truth.out, from) && Serves(LooksAt(look, Stderr), truth.err, from) && patience >= from
            && FirstResult(polls).Some?
            && EntriesIn(FirstResult(polls).value, Stdout) == Entries(sha, truth.out)
            && EntriesIn(FirstResult(polls).value, Stderr) == Entries(sha, truth.err) ==>
              outcome.Done? && outChunks == truth.out && errChunks == truth.err
  {
    hide Serves, Binds, LooksAt, Entries, EntriesIn, Joined;
    var tail := new Tail();
    var tail' := new Tail();
    var clock := 0;
    var looks, looks' := LooksAt(look, Stdout), LooksAt(look, Stderr);
    outChunks, errChunks := [], [];
    for i := 0 to |polls|
      invariant tail != tail' && fresh(tail) && fresh(tail')
      invariant tail.Valid(sha) && tail'.Valid(sha)
      invariant !stream ==> tail.count == 0 && tail'.count == 0 && tail.written == [] && tail'.written == []
      invariant FirstResult(polls) == FirstResult(polls[i..])
      invariant Serves(looks, truth.out, from) ==> tail.chunks <= truth.out
      invariant Serves(looks', truth.err, from) ==> tail'.chunks <= truth.err
    {
      var poll := polls[i];
      assert polls[i..][0] == poll && polls[i..][1..] == polls[i + 1..];
      if stream && poll.result.None? && !poll.propagating {
        clock := tail.Follow(sha, looks, clock, truth.out, from);
        clock := tail'.Follow(sha, looks', clock, truth.err, from);
      }
      if poll.result.Some? {
        var m := poll.result.value;
        var verdict, left;
        verdict, clock, left, outChunks := tail.Complete(sha, EntriesIn(m, Stdout), stream, looks, clock, patience, truth.out, from);
        if verdict.Some? { return verdict.value, tail.written, tail'.written, outChunks, errChunks; }
        verdict, clock, left, errChunks := tail'.Complete(sha, EntriesIn(m, Stderr), stream, looks', clock, left, truth.err, from);
        if verdict.Some? { return verdict.value, tail.written, tail'.written, outChunks, errChunks; }
        return Done(m), tail.written, tail'.written, outChunks, errChunks;
      }
    }
    return TimedOut, tail.written, tail'.written, outChunks, errChunks;
  }

  /** End to end: when the result is the one a watcher published for what it captured, the
      client's streams are the captured output, so prefixes of what the command wrote, and
      all of it when nothing is marked truncated. */
  lemma WrittenIsCaptured(sha: Bytes -> Digest, outcome: map<string, Json>, job: string, watcher: Json, fence: Json, c: Captured, stream: Stream, chunks: seq<Bytes>)
    requires Injective(sha)
    requires Binds(sha, EntriesIn(ResultOf(sha, outcome, job, watcher, fence, c), stream), chunks)
    ensures chunks == ChunksOf(c, stream)
  {
    var m := ResultOf(sha, outcome, job, watcher, fence, c);
    assert EntriesIn(m, stream) == Entries(sha, ChunksOf(c, stream));
    OwnEntriesBind(sha, ChunksOf(c, stream));
    BoundOnce(sha, EntriesIn(m, stream), chunks, ChunksOf(c, stream));
  }
}

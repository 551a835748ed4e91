/** Reading a job directory: verification of a request, and of a final result. */
module Protocol {
  import opened Wrappers
  import opened Wire

  /** The regular files below a directory, by relative path. */
  type Dir = map<string, Blob>

  /** The limits a reader of requests applies. */
  datatype Policy = Policy(maxRequestBytes: nat, maxUploadFiles: nat, maxUploadBytes: nat)

  // ------------------------------------------------------------ names and numbers

  function UpperChar(c: char): char {
    if 'a' <= c <= 'z' then ((c as int) - 32) as char else c
  }

  function LowerChar(c: char): char {
    if 'A' <= c <= 'Z' then ((c as int) + 32) as char else c
  }

  function Lower(s: string): string {
    seq(|s|, i requires 0 <= i < |s| => LowerChar(s[i]))
  }

  /** The part before the first dot, in upper case. */
  function Stem(s: string): string {
    if s == [] || s[0] == '.' then [] else [UpperChar(s[0])] + Stem(s[1..])
  }

  predicate IsDevice(stem: string) {
    || stem in {"CON", "PRN", "AUX", "NUL"}
    || (|stem| == 4 && stem[..3] in {"COM", "LPT"} && '1' <= stem[3] <= '9')
  }

  predicate SafeChar(c: char) {
    'a' <= c <= 'z' || 'A' <= c <= 'Z' || '0' <= c <= '9' || c in {'.', '_', '-'}
  }

  predicate SafeName(s: string) {
    && 1 <= |s| <= 200 && s[|s| - 1] != '.'
    && !IsDevice(Stem(s))
    && forall i :: 0 <= i < |s| ==> SafeChar(s[i])
  }

  // ------------------------------------------------------------ requests

  /** An upload entry: a name, a size, and the digest text. */
  predicate IsUpload(entry: Json) {
    && entry.Obj?
    && "name" in entry.fields && entry.fields["name"].Str? && SafeName(entry.fields["name"].s)
    && "size" in entry.fields && entry.fields["size"].Int? && entry.fields["size"].n >= 0
  }

  function UploadName(entry: Json): string
    requires IsUpload(entry)
  {
    entry.fields["name"].s
  }

  function UploadSize(entry: Json): nat
    requires IsUpload(entry)
  {
    entry.fields["size"].n
  }

  predicate AreUploads(entries: seq<Json>) {
    forall i :: 0 <= i < |entries| ==> IsUpload(entries[i])
  }

  /** No two names that differ at most in case. */
  predicate CaseDistinct(entries: seq<Json>)
    requires AreUploads(entries)
  {
    forall i, j :: 0 <= i < j < |entries| ==> Lower(UploadName(entries[i])) != Lower(UploadName(entries[j]))
  }

  function TotalSize(entries: seq<Json>): nat
    requires AreUploads(entries)
  {
    if entries == [] then 0 else TotalSize(entries[..|entries| - 1]) + UploadSize(entries[|entries| - 1])
  }

  /** The directory holds exactly the bytes of a payload entry. */
  predicate HoldsPayload(length: Blob -> nat, dir: Dir, name: string, size: int, digest: Json) {
    name in dir && length(dir[name]) == size && digest == Hex(Sha(dir[name]))
  }

  predicate HoldsUpload(length: Blob -> nat, dir: Dir, entry: Json)
    requires IsUpload(entry)
  {
    HoldsPayload(length, dir, "uploads/" + UploadName(entry), UploadSize(entry), Get(entry.fields, "sha256"))
  }

  function UploadsOf(m: map<string, Json>): Json {
    if "uploads" in m then m["uploads"] else Arr([])
  }

  /** A complete, consistent request: what a reader checks, apart from its own limits. */
  predicate IsRequest(length: Blob -> nat, dir: Dir, job: string, m: map<string, Json>) {
    && "COMMIT" in dir && ParseObject(dir["COMMIT"]).Some?
    && "request.json" in dir && ParseObject(dir["request.json"]) == Some(m)
    && var commit := ParseObject(dir["COMMIT"]).value;
       && Get(commit, "manifest_sha256") == Hex(Sha(dir["request.json"]))
       && EqualsInt(Get(m, "protocol"), 2) && EqualsInt(Get(commit, "protocol"), 2)
       && Get(m, "job_id") == Str(job) && Get(commit, "job_id") == Str(job)
       && var uploads := UploadsOf(m);
          && uploads.Arr? && AreUploads(uploads.items) && CaseDistinct(uploads.items)
          && EqualsInt(Get(commit, "upload_bytes"), TotalSize(uploads.items))
          && forall i :: 0 <= i < |uploads.items| ==> HoldsUpload(length, dir, uploads.items[i])
  }

  /** The reader's own limits admit the request. */
  predicate Admits(policy: Policy, length: Blob -> nat, dir: Dir, m: map<string, Json>) {
    && "COMMIT" in dir && length(dir["COMMIT"]) <= 4096
    && "request.json" in dir && length(dir["request.json"]) <= policy.maxRequestBytes
    && var uploads := UploadsOf(m);
       && uploads.Arr? && |uploads.items| <= policy.maxUploadFiles
       && (AreUploads(uploads.items) ==> TotalSize(uploads.items) <= policy.maxUploadBytes)
  }

  lemma {:induction false} TotalGrows(entries: seq<Json>, i: nat)
    requires AreUploads(entries) && i <= |entries|
    ensures TotalSize(entries[..i]) <= TotalSize(entries)
    decreases |entries| - i
  {
    if i < |entries| {
      assert entries[..i + 1][..i] == entries[..i];
      TotalGrows(entries, i + 1);
    } else {
      assert entries[..i] == entries;
    }
  }

  /** Entry k is an upload under this name in lower case. */
  predicate Named(entries: seq<Json>, k: nat, name: string) {
    k < |entries| && IsUpload(entries[k]) && Lower(UploadName(entries[k])) == name
  }

  /** Checks the entries: well formed, names distinct up to case, total within the limit. */
  method CheckEntries(entries: seq<Json>, maxBytes: nat) returns (total: Option<nat>)
    ensures total.Some? <==> AreUploads(entries) && CaseDistinct(entries) && TotalSize(entries) <= maxBytes
    ensures total.Some? ==> total.value == TotalSize(entries)
  {
    hide SafeName, Lower;
    var names: set<string> := {};
    var sum := 0;
    for i := 0 to |entries|
      invariant AreUploads(entries[..i])
      invariant forall k :: 0 <= k < i ==> Named(entries, k, Lower(UploadName(entries[k])))
      invariant forall j, k :: 0 <= j < k < i ==> Lower(UploadName(entries[j])) != Lower(UploadName(entries[k]))
      invariant forall n :: n in names ==> exists k: nat :: k < i && Named(entries, k, n)
      invariant forall k: nat, n {:trigger Named(entries, k, n)} :: k < i && Named(entries, k, n) ==> n in names
      invariant sum == TotalSize(entries[..i]) <= maxBytes
    {
      assert entries[..i + 1][..i] == entries[..i];
      if !IsUpload(entries[i]) { return None; }
      var name := Lower(UploadName(entries[i]));
      assert Named(entries, i, name);
      if name in names { return None; }
      assert TotalSize(entries[..i + 1]) == sum + UploadSize(entries[i]);
      if sum + UploadSize(entries[i]) > maxBytes {
        if AreUploads(entries) { TotalGrows(entries, i + 1); }
        return None;
      }
      names := names + {name};
      sum := sum + UploadSize(entries[i]);
    }
    assert entries[..|entries|] == entries;
    return Some(sum);
  }

  /** Verifies a request directory; the manifest, exactly when the request is complete
      and within the limits. */
  method VerifyRequest(policy: Policy, length: Blob -> nat, dir: Dir, job: string) returns (r: Option<map<string, Json>>)
    ensures r.Some? ==> IsRequest(length, dir, job, r.value) && Admits(policy, length, dir, r.value)
    ensures forall m :: IsRequest(length, dir, job, m) && Admits(policy, length, dir, m) ==> r == Some(m)
  {
    hide SafeName, Lower;
    if "COMMIT" !in dir || length(dir["COMMIT"]) > 4096 { return None; }
    var commit := ParseObject(dir["COMMIT"]);
    if commit.None? { return None; }
    if "request.json" !in dir || length(dir["request.json"]) > policy.maxRequestBytes { return None; }
    if Get(commit.value, "manifest_sha256") != Hex(Sha(dir["request.json"])) { return None; }
    var m := ParseObject(dir["request.json"]);
    if m.None? { return None; }
    if !EqualsInt(Get(m.value, "protocol"), 2) || !EqualsInt(Get(commit.value, "protocol"), 2) { return None; }
    if Get(m.value, "job_id") != Get(commit.value, "job_id") || Get(m.value, "job_id") != Str(job) { return None; }
    var uploads := UploadsOf(m.value);
    if !uploads.Arr? || |uploads.items| > policy.maxUploadFiles { return None; }
    var total := CheckEntries(uploads.items, policy.maxUploadBytes);
    if total.None? || !EqualsInt(Get(commit.value, "upload_bytes"), total.value) { return None; }
    for i := 0 to |uploads.items|
      invariant forall k :: 0 <= k < i ==> HoldsUpload(length, dir, uploads.items[k])
    {
      var entry := uploads.items[i];
      var name := "uploads/" + UploadName(entry);
      if name !in dir || length(dir[name]) > UploadSize(entry) { return None; }
      if length(dir[name]) != UploadSize(entry) || Get(entry.fields, "sha256") != Hex(Sha(dir[name])) { return None; }
    }
    return m;
  }

  // ------------------------------------------------------------ publishing a request

  /** A file to upload under a remote name. */
  datatype Upload = Upload(name: string, body: Blob)

  const UPLOAD_LIMIT := 128 * 1024 * 1024

  function EntryOf(length: Blob -> nat, u: Upload): Json {
    Obj(map["name" := Str(u.name), "size" := Int(length(u.body)), "sha256" := Hex(Sha(u.body))])
  }

  function EntriesOf(length: Blob -> nat, uploads: seq<Upload>): seq<Json> {
    seq(|uploads|, i requires 0 <= i < |uploads| => EntryOf(length, uploads[i]))
  }

  function BodyTotal(length: Blob -> nat, uploads: seq<Upload>): nat {
    if uploads == [] then 0 else BodyTotal(length, uploads[..|uploads| - 1]) + length(uploads[|uploads| - 1].body)
  }

  function Manifest(extra: map<string, Json>, job: string, now: int, entries: seq<Json>): map<string, Json> {
    extra["job_id" := Str(job)]["protocol" := Int(2)]["published_ns" := Int(now)]["uploads" := Arr(entries)]
  }

  function Commit(job: string, body: Blob, total: nat): Blob {
    Canon(Obj(map["protocol" := Int(2), "job_id" := Str(job), "manifest_sha256" := Hex(Sha(body)), "upload_bytes" := Int(total)]))
  }

  /** The publisher compares upload names as they are. */
  predicate Publishable(length: Blob -> nat, uploads: seq<Upload>) {
    && (forall i :: 0 <= i < |uploads| ==> SafeName(uploads[i].name))
    && (forall i, j :: 0 <= i < j < |uploads| ==> uploads[i].name != uploads[j].name)
    && BodyTotal(length, uploads) <= UPLOAD_LIMIT
  }

  /** The copies of the uploads, and nothing else. */
  predicate Copied(dir: Dir, uploads: seq<Upload>) {
    && (forall i :: 0 <= i < |uploads| ==> ("uploads/" + uploads[i].name) in dir && dir["uploads/" + uploads[i].name] == uploads[i].body)
    && (forall p :: p in dir ==> IsCopy(uploads, p))
  }

  predicate IsCopy(uploads: seq<Upload>, p: string) {
    exists i {:trigger uploads[i]} :: 0 <= i < |uploads| && p == "uploads/" + uploads[i].name
  }

  lemma {:induction false} BodyTotalGrows(length: Blob -> nat, uploads: seq<Upload>, i: nat)
    requires i <= |uploads|
    ensures BodyTotal(length, uploads[..i]) <= BodyTotal(length, uploads)
    decreases |uploads| - i
  {
    if i < |uploads| {
      assert uploads[..i + 1][..i] == uploads[..i];
      BodyTotalGrows(length, uploads, i + 1);
    } else {
      assert uploads[..i] == uploads;
    }
  }

  lemma CopyOne(dir: Dir, uploads: seq<Upload>, u: Upload)
    requires Copied(dir, uploads) && forall i :: 0 <= i < |uploads| ==> uploads[i].name != u.name
    ensures Copied(dir["uploads/" + u.name := u.body], uploads + [u])
  {
    forall i | 0 <= i < |uploads| ensures "uploads/" + uploads[i].name != "uploads/" + u.name {
      assert ("uploads/" + uploads[i].name)[8..] == uploads[i].name && ("uploads/" + u.name)[8..] == u.name;
    }
    var more := uploads + [u];
    forall p | p in dir["uploads/" + u.name := u.body] ensures IsCopy(more, p) {
      if p == "uploads/" + u.name {
        assert more[|uploads|] == u;
      } else {
        var i :| 0 <= i < |uploads| && p == "uploads/" + uploads[i].name;
        assert more[i] == uploads[i];
      }
    }
  }

  /** Copies the uploads one by one, adding an entry for each. */
  method CopyUploads(length: Blob -> nat, uploads: seq<Upload>) returns (ok: bool, dir: Dir, entries: seq<Json>, total: nat)
    ensures ok <==> Publishable(length, uploads)
    ensures ok ==> Copied(dir, uploads) && entries == EntriesOf(length, uploads) && total == BodyTotal(length, uploads)
  {
    hide SafeName, Copied, EntryOf, EntriesOf, BodyTotal;
    ok, dir, entries, total := true, map[], [], 0;
    NothingCopied(length);
    var names: set<string> := {};
    for i := 0 to |uploads|
      invariant ok
      invariant forall k :: 0 <= k < i ==> SafeName(uploads[k].name) && uploads[k].name in names
      invariant forall n :: n in names ==> exists k :: 0 <= k < i && uploads[k].name == n
      invariant forall j, k :: 0 <= j < k < i ==> uploads[j].name != uploads[k].name
      invariant Copied(dir, uploads[..i])
      invariant entries == EntriesOf(length, uploads[..i])
      invariant total == BodyTotal(length, uploads[..i]) <= UPLOAD_LIMIT
    {
      var u := uploads[i];
      assert uploads[..i + 1] == uploads[..i] + [u];
      if !SafeName(u.name) || u.name in names { return false, dir, entries, total; }
      names := names + {u.name};
      if length(u.body) > UPLOAD_LIMIT - total {
        OneMore(length, uploads[..i], u);
        BodyTotalGrows(length, uploads, i + 1);
        return false, dir, entries, total;
      }
      CopyOne(dir, uploads[..i], u);
      OneMore(length, uploads[..i], u);
      dir := dir["uploads/" + u.name := u.body];
      total := total + length(u.body);
      entries := entries + [EntryOf(length, u)];
    }
    assert uploads[..|uploads|] == uploads;
  }

  lemma NothingCopied(length: Blob -> nat)
    ensures Copied(map[], []) && EntriesOf(length, []) == [] && BodyTotal(length, []) == 0
  {
  }

  lemma OneMore(length: Blob -> nat, uploads: seq<Upload>, u: Upload)
    ensures EntriesOf(length, uploads + [u]) == EntriesOf(length, uploads) + [EntryOf(length, u)]
    ensures BodyTotal(length, uploads + [u]) == BodyTotal(length, uploads) + length(u.body)
  {
    assert (uploads + [u])[..|uploads|] == uploads;
  }

  /** Copies the uploads, writes the manifest and then the marker. Fails if the job's ready
      directory is there already, on an unsafe or repeated name, or when the uploads exceed
      the limit. */
  method PublishRequest(length: Blob -> nat, job: string, taken: bool, extra: map<string, Json>, now: int, uploads: seq<Upload>)
      returns (r: Option<Dir>)
    ensures r.Some? <==> SafeName(job) && !taken && Publishable(length, uploads)
    ensures r.Some? ==> r.value == r.value["request.json" := RequestBody(length, job, extra, now, uploads)]
                                          ["COMMIT" := Commit(job, RequestBody(length, job, extra, now, uploads), BodyTotal(length, uploads))]
    ensures r.Some? ==> Copied(r.value - {"request.json", "COMMIT"}, uploads)
  {
    hide SafeName, Publishable, BodyTotal, EntriesOf;
    if !SafeName(job) { return None; }
    if taken { return None; }
    var ok, dir, entries, total := CopyUploads(length, uploads);
    if !ok { return None; }
    var request := Canon(Obj(Manifest(extra, job, now, entries)));
    var all := dir["request.json" := request]["COMMIT" := Commit(job, request, total)];
    assert "uploads/"[0] == 'u' && "request.json"[0] == 'r' && "COMMIT"[0] == 'C';
    assert all - {"request.json", "COMMIT"} == dir;
    return Some(all);
  }

  function RequestBody(length: Blob -> nat, job: string, extra: map<string, Json>, now: int, uploads: seq<Upload>): Blob {
    Canon(Obj(Manifest(extra, job, now, EntriesOf(length, uploads))))
  }

  lemma {:induction false} EntriesAdd(length: Blob -> nat, uploads: seq<Upload>)
    requires forall i :: 0 <= i < |uploads| ==> SafeName(uploads[i].name)
    ensures AreUploads(EntriesOf(length, uploads)) && TotalSize(EntriesOf(length, uploads)) == BodyTotal(length, uploads)
  {
    hide SafeName;
    if uploads != [] {
      EntriesAdd(length, uploads[..|uploads| - 1]);
      assert EntriesOf(length, uploads)[..|uploads| - 1] == EntriesOf(length, uploads[..|uploads| - 1]);
    }
  }

  /** No two names that differ at most in case. */
  predicate NamesCaseDistinct(uploads: seq<Upload>) {
    forall i, j :: 0 <= i < j < |uploads| ==> Lower(uploads[i].name) != Lower(uploads[j].name)
  }

  /** A published request is verified as its own manifest exactly when no two upload names
      differ only in case. */
  lemma PublishedVerifies(length: Blob -> nat, job: string, extra: map<string, Json>, now: int, uploads: seq<Upload>, dir: Dir)
    requires SafeName(job) && Publishable(length, uploads)
    requires "request.json" in dir && dir["request.json"] == RequestBody(length, job, extra, now, uploads)
    requires "COMMIT" in dir && dir["COMMIT"] == Commit(job, dir["request.json"], BodyTotal(length, uploads))
    requires Copied(dir - {"request.json", "COMMIT"}, uploads)
    ensures IsRequest(length, dir, job, Manifest(extra, job, now, EntriesOf(length, uploads))) <==> NamesCaseDistinct(uploads)
  {
    hide SafeName, Lower, TotalSize, BodyTotal, IsCopy;
    var entries := EntriesOf(length, uploads);
    var m := Manifest(extra, job, now, entries);
    EntriesAdd(length, uploads);
    assert ParseObject(dir["request.json"]) == Some(m);
    assert UploadsOf(m) == Arr(entries);
    assert forall i :: 0 <= i < |entries| ==> UploadName(entries[i]) == uploads[i].name;
    assert NamesCaseDistinct(uploads) ==> CaseDistinct(entries);
    if CaseDistinct(entries) {
      forall i, j | 0 <= i < j < |uploads| ensures Lower(uploads[i].name) != Lower(uploads[j].name) {
        assert UploadName(entries[i]) == uploads[i].name && UploadName(entries[j]) == uploads[j].name;
      }
    }
    forall i | 0 <= i < |entries| ensures HoldsUpload(length, dir, entries[i]) {
      var path := "uploads/" + uploads[i].name;
      assert path in dir - {"request.json", "COMMIT"};
      assert entries[i] == EntryOf(length, uploads[i]);
    }
  }

  /** Two uploads "a" and "A" can be published, and no reader ever accepts the request. */
  lemma CaseClashIsNeverVerified(length: Blob -> nat, job: string, body: Blob, dir: Dir)
    requires SafeName(job) && 2 * length(body) <= UPLOAD_LIMIT
    requires var uploads := [Upload("a", body), Upload("A", body)];
             && "request.json" in dir && dir["request.json"] == RequestBody(length, job, map[], 0, uploads)
             && "COMMIT" in dir && dir["COMMIT"] == Commit(job, dir["request.json"], BodyTotal(length, uploads))
             && Copied(dir - {"request.json", "COMMIT"}, uploads)
    ensures Publishable(length, [Upload("a", body), Upload("A", body)])
    ensures forall m :: !IsRequest(length, dir, job, m)
  {
    var uploads := [Upload("a", body), Upload("A", body)];
    assert uploads[..1] == [uploads[0]] && uploads[..1][..0] == [];
    assert BodyTotal(length, uploads[..1]) == length(body);
    assert Publishable(length, uploads);
    assert Lower(uploads[0].name) == Lower(uploads[1].name);
    PublishedVerifies(length, job, map[], 0, uploads, dir);
    forall m ensures !IsRequest(length, dir, job, m) {
      assert IsRequest(length, dir, job, m) ==> m == Manifest(map[], job, 0, EntriesOf(length, uploads));
    }
  }

  // ------------------------------------------------------------ results

  const RESULT_LIMIT := 16 * 1024 * 1024
  const STREAMS := ["stdout", "stderr"]

  /** A manifest entry of one stored chunk. */
  predicate IsChunk(entry: Json) {
    && entry.Obj? && InRange(Get(entry.fields, "size"), 0, 65536)
    && var digest := Get(entry.fields, "sha256"); digest.Hex? || (digest.Str? && |digest.s| == 64)
  }

  /** The declared number of chunk entries. */
  predicate AreChunks(count: Json, entries: Json) {
    && InRange(count, 0, 4096) && entries.Arr? && |entries.items| == count.n
    && forall i :: 0 <= i < |entries.items| ==> IsChunk(entries.items[i])
  }

  predicate IsStream(m: map<string, Json>, streams: map<string, Json>, stream: string) {
    AreChunks(if (stream + "_chunks") in m then m[stream + "_chunks"] else Int(0), if stream in streams then streams[stream] else Arr([]))
  }

  function StreamsOf(m: map<string, Json>): Json {
    if "streams" in m then m["streams"] else Obj(map[])
  }

  /** The final result that the pointer selects, consistent with it. */
  predicate IsFinal(length: Blob -> nat, dir: Dir, job: string, m: map<string, Json>) {
    && "FINAL" in dir && length(dir["FINAL"]) <= 4096 && ParseObject(dir["FINAL"]).Some?
    && var final := ParseObject(dir["FINAL"]).value;
       && Get(final, "result_file").Str? && SafeName(Get(final, "result_file").s)
       && var generation := Get(final, "result_file").s;
          && generation in dir && length(dir[generation]) <= RESULT_LIMIT
          && Get(final, "result_sha256") == Hex(Sha(dir[generation]))
          && ParseObject(dir[generation]) == Some(m)
          && Get(m, "job_id") == Get(final, "job_id") == Str(job)
          && Get(m, "watcher_id") == Get(final, "watcher_id") && Get(m, "fence") == Get(final, "fence")
          && StreamsOf(m).Obj?
          && forall stream :: stream in STREAMS ==> IsStream(m, StreamsOf(m).fields, stream)
  }

  method CheckChunks(count: Json, entries: Json) returns (ok: bool)
    ensures ok <==> AreChunks(count, entries)
  {
    if !InRange(count, 0, 4096) || !entries.Arr? || |entries.items| != count.n { return false; }
    for i := 0 to |entries.items|
      invariant forall k :: 0 <= k < i ==> IsChunk(entries.items[k])
    {
      if !IsChunk(entries.items[i]) { return false; }
    }
    return true;
  }

  /** Reads the selected result; succeeds exactly on a consistent one. */
  method ReadFinal(length: Blob -> nat, dir: Dir, job: string) returns (r: Option<map<string, Json>>)
    ensures r.Some? ==> IsFinal(length, dir, job, r.value)
    ensures forall m :: IsFinal(length, dir, job, m) ==> r == Some(m)
  {
    hide SafeName, AreChunks;
    if "FINAL" !in dir || length(dir["FINAL"]) > 4096 { return None; }
    var final := ParseObject(dir["FINAL"]);
    if final.None? { return None; }
    if !Get(final.value, "result_file").Str? || !SafeName(Get(final.value, "result_file").s) { return None; }
    var generation := Get(final.value, "result_file").s;
    if generation !in dir || length(dir[generation]) > RESULT_LIMIT { return None; }
    if Get(final.value, "result_sha256") != Hex(Sha(dir[generation])) { return None; }
    var m := ParseObject(dir[generation]);
    if m.None? { return None; }
    if Get(m.value, "job_id") != Get(final.value, "job_id") || Get(m.value, "watcher_id") != Get(final.value, "watcher_id")
       || Get(m.value, "fence") != Get(final.value, "fence") || Get(m.value, "job_id") != Str(job) { return None; }
    var streams := StreamsOf(m.value);
    if !streams.Obj? { return None; }
    assert STREAMS[0] == "stdout" && STREAMS[1] == "stderr";
    for i := 0 to 2
      invariant forall k :: 0 <= k < i ==> IsStream(m.value, streams.fields, STREAMS[k])
    {
      var stream := STREAMS[i];
      var ok := CheckChunks(if (stream + "_chunks") in m.value then m.value[stream + "_chunks"] else Int(0),
                            if stream in streams.fields then streams.fields[stream] else Arr([]));
      assert ok <==> IsStream(m.value, streams.fields, stream);
      if !ok { return None; }
    }
    return m;
  }
}

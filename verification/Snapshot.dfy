/** The relay's reading of a publication from a directory that others may still be
    changing: bounded, checked against its manifest, re-read before it is trusted. */
module Snapshot {
  import opened Wrappers
  import opened Wire
  import opened Protocol
  import opened Paths

  datatype Limits = Limits(maxFiles: nat, maxFileBytes: nat, maxPublicationBytes: nat, maxEntries: nat)

  datatype PubFile = PubFile(name: string, body: Blob)

  /** An entry met while walking the source directory. */
  datatype Kind = Folder | Regular | Unsafe

  datatype Met = Met(name: string, kind: Kind)

  // ------------------------------------------------------------ names

  /** The digits of n, padded to a width. */
  function Pad(n: nat, width: nat): string {
    if width == 0 then "" else Pad(n / 10, width - 1) + [(48 + n % 10) as char]
  }

  function ChunkName(stream: string, index: nat): string {
    stream + "/" + Pad(index, 8) + ".chunk"
  }

  predicate IsHex(c: char) {
    '0' <= c <= '9' || 'a' <= c <= 'f'
  }

  predicate IsGeneration(s: string) {
    |s| == 44 && s[..7] == "result-" && s[39..] == ".json" && forall i :: 7 <= i < 39 ==> IsHex(s[i])
  }

  /** The names of a result's files; the status records beside them are not among these. */
  predicate IsResultName(s: string) {
    s == "FINAL" || IsGeneration(s) || "stdout/" <= s || "stderr/" <= s || "artifacts/" <= s
  }

  predicate IsChunkFile(s: string) {
    |s| == 21 && (s[..7] == "stdout/" || s[..7] == "stderr/") && s[15..] == ".chunk" && forall i :: 7 <= i < 15 ==> '0' <= s[i] <= '9'
  }

  // ------------------------------------------------------------ the files of a publication

  function DirOf(files: seq<PubFile>): Dir {
    if files == [] then map[] else DirOf(files[..|files| - 1])[files[|files| - 1].name := files[|files| - 1].body]
  }

  lemma DirOfAppend(files: seq<PubFile>, f: PubFile)
    ensures DirOf(files + [f]) == DirOf(files)[f.name := f.body]
  {
    assert (files + [f])[..|files|] == files;
  }

  /** Each name once. */
  predicate NamesDiffer(files: seq<PubFile>) {
    forall i, j :: 0 <= i < j < |files| ==> files[i].name != files[j].name
  }

  lemma AddName(files: seq<PubFile>, f: PubFile)
    ensures NamesDiffer([])
    ensures NamesDiffer(files) && (forall k :: 0 <= k < |files| ==> files[k].name != f.name) ==> NamesDiffer(files + [f])
  {
  }

  function Sizes(length: Blob -> nat, order: seq<string>, files: Dir): nat
    requires forall i :: 0 <= i < |order| ==> order[i] in files
  {
    if order == [] then 0 else Sizes(length, order[..|order| - 1], files) + length(files[order[|order| - 1]])
  }

  lemma {:induction false} SizesFrame(length: Blob -> nat, order: seq<string>, files: Dir, files': Dir)
    requires forall i :: 0 <= i < |order| ==> order[i] in files && order[i] in files' && files'[order[i]] == files[order[i]]
    ensures Sizes(length, order, files') == Sizes(length, order, files)
  {
    if order != [] {
      SizesFrame(length, order[..|order| - 1], files, files');
    }
  }

  function ListBytes(length: Blob -> nat, list: seq<PubFile>): nat {
    if list == [] then 0 else ListBytes(length, list[..|list| - 1]) + length(list[|list| - 1].body)
  }

  lemma BytesAppend(length: Blob -> nat, list: seq<PubFile>, f: PubFile)
    ensures ListBytes(length, list + [f]) == ListBytes(length, list) + length(f.body) && ListBytes(length, []) == 0
  {
    assert (list + [f])[..|list|] == list;
  }

  /** All files but one, in reading order. */
  function Others(order: seq<string>, files: Dir, marker: string): seq<PubFile>
    requires forall i :: 0 <= i < |order| ==> order[i] in files
  {
    if order == [] then []
    else
      var rest, last := Others(order[..|order| - 1], files, marker), order[|order| - 1];
      if last == marker then rest else rest + [PubFile(last, files[last])]
  }

  /** The files in reading order, but this one moved to the end. */
  function Sealed(order: seq<string>, files: Dir, marker: string): seq<PubFile>
    requires marker in files && forall i :: 0 <= i < |order| ==> order[i] in files
  {
    Others(order, files, marker) + [PubFile(marker, files[marker])]
  }

  lemma SealedIs(order: seq<string>, files: Dir, marker: string)
    requires marker in files && forall i :: 0 <= i < |order| ==> order[i] in files
    ensures Sealed(order, files, marker) == Others(order, files, marker) + [PubFile(marker, files[marker])]
  {
  }

  lemma NoOthers(files: Dir, marker: string)
    ensures Others([], files, marker) == []
  {
  }

  lemma {:induction false} OthersSame(order: seq<string>, files: Dir, files': Dir, marker: string)
    requires forall i :: 0 <= i < |order| ==> order[i] in files && order[i] in files' && files'[order[i]] == files[order[i]]
    ensures Others(order, files', marker) == Others(order, files, marker)
  {
    if order != [] {
      OthersSame(order[..|order| - 1], files, files', marker);
    }
  }

  lemma OthersAppend(order: seq<string>, files: Dir, marker: string, i: nat)
    requires i < |order| && forall k :: 0 <= k < |order| ==> order[k] in files
    ensures Others(order[..i + 1], files, marker) ==
              Others(order[..i], files, marker) + (if order[i] == marker then [] else [PubFile(order[i], files[order[i]])])
  {
    assert order[..i + 1][..i] == order[..i];
  }

  lemma {:induction false} OthersAre(order: seq<string>, files: Dir, marker: string)
    requires forall i :: 0 <= i < |order| ==> order[i] in files
    ensures forall k {:trigger Others(order, files, marker)[k]} :: 0 <= k < |Others(order, files, marker)| ==>
              var f := Others(order, files, marker)[k]; f.name in order && f.name in files && f.name != marker && f.body == files[f.name]
  {
    if order != [] {
      OthersAre(order[..|order| - 1], files, marker);
    }
  }

  lemma {:induction false} OthersDiffer(order: seq<string>, files: Dir, marker: string)
    requires forall i :: 0 <= i < |order| ==> order[i] in files
    requires forall i, j :: 0 <= i < j < |order| ==> order[i] != order[j]
    ensures NamesDiffer(Others(order, files, marker))
    ensures |Others(order, files, marker)| + (if marker in order then 1 else 0) == |order|
  {
    if order != [] {
      var past := order[..|order| - 1];
      OthersDiffer(past, files, marker);
      OthersAre(past, files, marker);
      assert order == past + [order[|past|]];
    }
  }

  lemma {:induction false} OthersDir(order: seq<string>, files: Dir, marker: string)
    requires forall i :: 0 <= i < |order| ==> order[i] in files
    ensures DirOf(Others(order, files, marker)) == (map n | n in files && n in order && n != marker :: files[n])
  {
    if order != [] {
      var past, last := order[..|order| - 1], order[|order| - 1];
      OthersDir(past, files, marker);
      assert order == past + [last];
      if last != marker { DirOfAppend(Others(past, files, marker), PubFile(last, files[last])); }
    }
  }

  lemma {:induction false} OthersBytes(length: Blob -> nat, order: seq<string>, files: Dir, marker: string)
    requires forall i :: 0 <= i < |order| ==> order[i] in files
    requires forall i, j :: 0 <= i < j < |order| ==> order[i] != order[j]
    ensures ListBytes(length, Others(order, files, marker)) + (if marker in order then length(files[marker]) else 0) == Sizes(length, order, files)
  {
    if order != [] {
      var past, last := order[..|order| - 1], order[|order| - 1];
      OthersBytes(length, past, files, marker);
      assert order == past + [last];
      if last != marker { BytesAppend(length, Others(past, files, marker), PubFile(last, files[last])); }
    }
  }

  lemma OthersFacts(length: Blob -> nat, order: seq<string>, files: Dir, marker: string)
    requires forall i :: 0 <= i < |order| ==> order[i] in files
    requires forall i, j :: 0 <= i < j < |order| ==> order[i] != order[j]
    ensures var list := Others(order, files, marker);
            && NamesDiffer(list) && |list| + (if marker in order then 1 else 0) == |order|
            && DirOf(list) == (map n | n in files && n in order && n != marker :: files[n])
            && ListBytes(length, list) + (if marker in order then length(files[marker]) else 0) == Sizes(length, order, files)
            && forall k :: 0 <= k < |list| ==> list[k].name in files && list[k].name != marker && list[k].body == files[list[k].name]
  {
    hide *;
    OthersAre(order, files, marker);
    OthersDiffer(order, files, marker);
    OthersDir(order, files, marker);
    OthersBytes(length, order, files, marker);
  }

  /** A list within the limits of one publication. */
  predicate Fits(limits: Limits, length: Blob -> nat, list: seq<PubFile>) {
    && 0 < |list| <= limits.maxFiles
    && ListBytes(length, list) <= limits.maxPublicationBytes
    && forall i :: 0 <= i < |list| ==> length(list[i].body) <= limits.maxFileBytes
  }

  lemma ItFits(limits: Limits, length: Blob -> nat, list: seq<PubFile>)
    requires 0 < |list| <= limits.maxFiles && ListBytes(length, list) <= limits.maxPublicationBytes
    requires forall i :: 0 <= i < |list| ==> length(list[i].body) <= limits.maxFileBytes
    ensures Fits(limits, length, list)
  {
  }

  /** What the walk of the source directory may meet. */
  predicate Expected(files: Dir, extra: set<string>, result: bool, met: Met) {
    ExpectedIn(files.Keys, extra, result, met)
  }

  predicate ExpectedIn(names: set<string>, extra: set<string>, result: bool, met: Met) {
    var artifact := result && "artifacts/" <= met.name;
    var allowed := met.name in names || met.name in extra;
    match met.kind
    case Folder => artifact || (result && met.name in {"stdout", "stderr", "artifacts"})
                   || (exists n :: n in names && met.name + "/" <= n) || (exists n :: n in extra && met.name + "/" <= n)
    case Regular => allowed || artifact || (result && (IsGeneration(met.name) || IsChunkFile(met.name)))
    case Unsafe => false
  }

  // ------------------------------------------------------------ a directory nobody changes

  /** Every look finds what the directory holds. */
  ghost predicate Stable(look: (nat, string) -> Option<Blob>, dir: Dir) {
    forall t, n {:trigger look(t, n)} :: n in dir ==> look(t, n) == Some(dir[n])
  }

  /** Different files of the directory, within the limits of one publication. */
  ghost predicate Ample(limits: Limits, length: Blob -> nat, dir: Dir, wanted: seq<string>) {
    && |wanted| <= limits.maxFiles
    && (forall i, j :: 0 <= i < j < |wanted| ==> wanted[i] != wanted[j])
    && (forall i :: 0 <= i < |wanted| ==> wanted[i] in dir && IsRelative(wanted[i]) && length(dir[wanted[i]]) <= limits.maxFileBytes)
    && Sizes(length, wanted, dir) <= limits.maxPublicationBytes
  }

  lemma {:induction false} SizesGrow(length: Blob -> nat, wanted: seq<string>, dir: Dir, k: nat)
    requires k < |wanted| && forall i :: 0 <= i < |wanted| ==> wanted[i] in dir
    ensures Sizes(length, wanted[..k], dir) + length(dir[wanted[k]]) == Sizes(length, wanted[..k + 1], dir) <= Sizes(length, wanted, dir)
    decreases |wanted| - k
  {
    assert wanted[..k + 1][..k] == wanted[..k];
    if k + 1 < |wanted| {
      SizesGrow(length, wanted, dir, k + 1);
    } else {
      assert wanted[..k + 1] == wanted;
    }
  }

  /** The entry declares exactly what the directory holds, within the limit. */
  ghost predicate HasPayload(length: Blob -> nat, dir: Dir, name: string, entry: map<string, Json>, limit: Option<nat>) {
    && "size" in entry && entry["size"].Int? && "sha256" in entry
    && HoldsPayload(length, dir, name, entry["size"].n, entry["sha256"])
    && (limit.Some? ==> entry["size"].n <= limit.value)
  }

  // ------------------------------------------------------------ complete requests

  function UploadFiles(entries: seq<Json>): seq<string>
    requires AreUploads(entries)
  {
    seq(|entries|, i requires 0 <= i < |entries| => "uploads/" + UploadName(entries[i]))
  }

  /** The path of one of the first k uploads. */
  ghost predicate IsUploadFile(entries: seq<Json>, k: nat, name: string) {
    exists i: nat {:trigger entries[i]} :: i < k && i < |entries| && IsUpload(entries[i]) && name == "uploads/" + UploadName(entries[i])
  }

  /** The paths of a request's files. */
  ghost predicate IsRequestFile(m: map<string, Json>, name: string) {
    name in {"COMMIT", "request.json"} || (Get(m, "uploads").Arr? && IsUploadFile(Get(m, "uploads").items, |Get(m, "uploads").items|, name))
  }

  lemma UploadFileIs(entry: Json)
    ensures Snapshot.HasName(entry) ==> entry.Obj? && "name" in entry.fields && entry.fields["name"].Str?
    ensures IsUpload(entry) ==> UploadName(entry) == entry.fields["name"].s
  {
    hide SafeName;
  }

  /** The directory holds every upload, under case-distinct names, adding up to the total. */
  ghost predicate AllHeld(length: Blob -> nat, dir: Dir, entries: seq<Json>, committed: Json) {
    && AreUploads(entries) && CaseDistinct(entries) && committed == Int(TotalSize(entries))
    && forall i :: 0 <= i < |entries| ==> HoldsUpload(length, dir, entries[i])
  }

  lemma NoUploads(entries: seq<Json>)
    ensures AreUploads(entries[..0]) && TotalSize(entries[..0]) == 0
    ensures AreUploads(entries) ==> |UploadFiles(entries)| == |entries| && UploadFiles(entries)[..0] == [] && UploadFiles(entries)[..|entries|] == UploadFiles(entries)
  {
    hide IsUpload;
  }

  lemma OneUploadMore(entries: seq<Json>, i: nat)
    requires i < |entries| && AreUploads(entries[..i]) && IsUpload(entries[i])
    ensures AreUploads(entries[..i + 1]) && TotalSize(entries[..i + 1]) == TotalSize(entries[..i]) + UploadSize(entries[i])
    ensures Named(entries, i, Lower(UploadName(entries[i])))
    ensures IsUploadFile(entries, i + 1, "uploads/" + UploadName(entries[i]))
    ensures forall n {:trigger IsUploadFile(entries, i + 1, n)} :: IsUploadFile(entries, i, n) ==> IsUploadFile(entries, i + 1, n)
  {
    hide IsUpload, UploadSize, Lower;
    assert entries[..i + 1][..i] == entries[..i] && entries[..i + 1][i] == entries[i];
    assert forall k {:trigger entries[..i + 1][k]} :: 0 <= k < i ==> entries[..i + 1][k] == entries[..i][k];
  }

  lemma AreDistinct(entries: seq<Json>)
    requires forall k :: 0 <= k < |entries| ==> IsUpload(entries[k])
    requires forall j, k :: 0 <= j < k < |entries| ==> Lower(UploadName(entries[j])) != Lower(UploadName(entries[k]))
    ensures AreUploads(entries) && CaseDistinct(entries)
  {
    hide IsUpload, Lower;
  }

  lemma TheTotal(length: Blob -> nat, dir: Dir, entries: seq<Json>, committed: Json)
    requires AllHeld(length, dir, entries, committed)
    ensures AreUploads(entries) && committed == Int(TotalSize(entries))
  {
    hide IsUpload, CaseDistinct, HoldsUpload;
  }

  lemma NewUpload(length: Blob -> nat, dir: Dir, entries: seq<Json>, committed: Json, i: nat, names: set<string>)
    requires AllHeld(length, dir, entries, committed) && i < |entries|
    requires forall n :: n in names ==> exists k: nat :: k < i && Named(entries, k, n)
    ensures Snapshot.HasName(entries[i]) && IsUpload(entries[i]) && HoldsUpload(length, dir, entries[i])
    ensures Lower(entries[i].fields["name"].s) !in names
  {
    hide SafeName, Lower, TotalSize, HoldsUpload;
    assert UploadName(entries[i]) == entries[i].fields["name"].s;
  }

  lemma NextUpload(read: seq<string>, entries: seq<Json>, wanted: seq<string>, i: nat)
    requires AreUploads(entries) && i < |entries| && read + UploadFiles(entries) == wanted
    ensures var name := "uploads/" + entries[i].fields["name"].s;
            && read + UploadFiles(entries)[..i] + [name] == read + UploadFiles(entries)[..i + 1] <= wanted
  {
    hide SafeName;
    assert UploadFiles(entries)[..i] + [UploadFiles(entries)[i]] == UploadFiles(entries)[..i + 1];
    assert wanted == read + UploadFiles(entries)[..i + 1] + UploadFiles(entries)[i + 1..];
  }

  function RequestFiles(entries: seq<Json>): seq<string>
    requires AreUploads(entries)
  {
    ["COMMIT", "request.json"] + UploadFiles(entries)
  }

  /** A complete request within the relay's limits, in a directory with nothing else. */
  ghost predicate CompleteRequest(limits: Limits, length: Blob -> nat, dir: Dir, job: string, listing: seq<Met>) {
    && "COMMIT" in dir && length(dir["COMMIT"]) <= 4096 && ParseObject(dir["COMMIT"]).Some?
    && "request.json" in dir && length(dir["request.json"]) <= 1024 * 1024 && ParseObject(dir["request.json"]).Some?
    && var commit, m := ParseObject(dir["COMMIT"]).value, ParseObject(dir["request.json"]).value;
       && IsRequest(length, dir, job, m)
       && "uploads" in m && Get(commit, "upload_bytes").Int? // a missing list or a float total is only good for readers
       && Ample(limits, length, dir, RequestFiles(m["uploads"].items))
       && Bare(limits, set n | n in RequestFiles(m["uploads"].items), {}, false, listing)
  }

  /** The list made of a complete request. */
  ghost function RequestList(dir: Dir): seq<PubFile> {
    var wanted := if "request.json" in dir && ParseObject(dir["request.json"]).Some? && AreUploads(ItemsOf(Get(ParseObject(dir["request.json"]).value, "uploads")))
                  then RequestFiles(ItemsOf(Get(ParseObject(dir["request.json"]).value, "uploads"))) else [];
    if "COMMIT" in dir && forall i :: 0 <= i < |wanted| ==> wanted[i] in dir then Sealed(wanted, dir, "COMMIT") else []
  }

  lemma CompleteParts(limits: Limits, length: Blob -> nat, dir: Dir, job: string, listing: seq<Met>)
    requires CompleteRequest(limits, length, dir, job, listing)
    ensures "COMMIT" in dir && length(dir["COMMIT"]) <= 4096 && ParseObject(dir["COMMIT"]).Some?
    ensures "request.json" in dir && length(dir["request.json"]) <= 1024 * 1024 && ParseObject(dir["request.json"]).Some?
    ensures var commit, m := ParseObject(dir["COMMIT"]).value, ParseObject(dir["request.json"]).value;
            && EqualsInt(Get(commit, "protocol"), 2) && EqualsInt(Get(m, "protocol"), 2)
            && Get(commit, "job_id") == Str(job) && Get(m, "job_id") == Str(job)
            && Get(commit, "manifest_sha256") == Hex(Sha(dir["request.json"]))
            && "uploads" in m && m["uploads"].Arr? && AreUploads(m["uploads"].items) && |m["uploads"].items| <= limits.maxFiles - 2
            && AllHeld(length, dir, m["uploads"].items, Get(commit, "upload_bytes"))
            && var wanted := RequestFiles(m["uploads"].items);
               |wanted| >= 2 && wanted[0] == "COMMIT" && wanted[1] == "request.json" && wanted == ["COMMIT"] + ["request.json"] + UploadFiles(m["uploads"].items)
               && Ample(limits, length, dir, wanted)
               && Bare(limits, set n | n in wanted, {}, false, listing)
  {
    hide SafeName, Lower, Bare, HoldsUpload, TotalSize, IsUpload, CaseDistinct, UploadFiles, IsRelative, Sizes, Ample;
    FewFiles(limits, length, dir, ParseObject(dir["request.json"]).value["uploads"].items);
  }

  lemma FewFiles(limits: Limits, length: Blob -> nat, dir: Dir, entries: seq<Json>)
    requires AreUploads(entries)
    ensures Ample(limits, length, dir, RequestFiles(entries)) ==> |entries| <= limits.maxFiles - 2
    ensures RequestFiles(entries) == ["COMMIT"] + ["request.json"] + UploadFiles(entries)
  {
    hide IsUpload, IsRelative, Sizes;
  }

  // ------------------------------------------------------------ complete results

  function ChunkFiles(stream: string, entries: seq<Json>): seq<string> {
    seq(|entries|, i requires 0 <= i < |entries| => ChunkName(stream, i))
  }

  /** The directory holds every chunk of the stream. */
  ghost predicate AllChunks(length: Blob -> nat, dir: Dir, stream: string, entries: seq<Json>) {
    forall i :: 0 <= i < |entries| ==> IsChunk(entries[i]) && HoldsChunk(length, dir, stream, i, entries[i])
  }

  lemma NoChunks(stream: string, entries: seq<Json>)
    ensures |ChunkFiles(stream, entries)| == |entries| && ChunkFiles(stream, entries)[..0] == []
  {
  }

  lemma ChunkNameIs(stream: string, i: nat)
    ensures stream + "/" <= ChunkName(stream, i)
  {
    hide Pad;
    assert ChunkName(stream, i) == stream + "/" + (Pad(i, 8) + ".chunk");
  }

  lemma NextChunk(length: Blob -> nat, dir: Dir, stream: string, entries: seq<Json>, read: seq<string>, wanted: seq<string>, i: nat)
    requires AllChunks(length, dir, stream, entries) && i < |entries| && read + ChunkFiles(stream, entries) <= wanted
    ensures entries[i].Obj? && HasPayload(length, dir, ChunkName(stream, i), entries[i].fields, Some(65536))
    ensures read + ChunkFiles(stream, entries)[..i] + [ChunkName(stream, i)] == read + ChunkFiles(stream, entries)[..i + 1] <= wanted
  {
    hide ChunkName;
    var names := ChunkFiles(stream, entries);
    assert names[..i] + [names[i]] == names[..i + 1];
    assert names == names[..i + 1] + names[i + 1..];
  }

  lemma ThisChunk(length: Blob -> nat, files: Dir, stream: string, i: nat, entry: Json)
    requires entry.Obj? && "size" in entry.fields && entry.fields["size"].Int? && 0 <= entry.fields["size"].n <= 65536
    requires "sha256" in entry.fields && entry.fields["sha256"].Hex?
    requires HoldsPayload(length, files, ChunkName(stream, i), entry.fields["size"].n, entry.fields["sha256"])
    ensures IsChunk(entry) && HoldsChunk(length, files, stream, i, entry)
  {
  }

  lemma ChunkOn(length: Blob -> nat, files: Dir, files': Dir, stream: string, i: nat, entry: Json)
    requires HoldsChunk(length, files, stream, i, entry) && forall n :: n in files ==> n in files' && files'[n] == files[n]
    ensures HoldsChunk(length, files', stream, i, entry)
  {
    hide ChunkName;
  }

  function ArtifactFiles(entries: seq<Json>): seq<string> {
    seq(|entries|, i requires 0 <= i < |entries| => "artifacts/" + ArtifactName(entries[i]))
  }

  /** The directory holds every artifact, under case-distinct names. */
  ghost predicate AllArtifacts(length: Blob -> nat, dir: Dir, entries: seq<Json>) {
    && (forall i :: 0 <= i < |entries| ==> HoldsArtifact(length, dir, entries[i]))
    && (forall i, j :: 0 <= i < j < |entries| ==> Lower(ArtifactName(entries[i])) != Lower(ArtifactName(entries[j])))
  }

  predicate ArtifactNamed(entries: seq<Json>, k: nat, name: string) {
    k < |entries| && Lower(ArtifactName(entries[k])) == name
  }

  lemma NoArtifacts(entries: seq<Json>)
    ensures |ArtifactFiles(entries)| == |entries| && ArtifactFiles(entries)[..0] == []
  {
  }

  lemma LastNamed(entries: seq<Json>, i: nat)
    requires i < |entries|
    ensures ArtifactNamed(entries, i, Lower(ArtifactName(entries[i])))
  {
  }

  lemma RelativeIs(entry: Json)
    requires Snapshot.HasRelative(entry)
    ensures entry.Obj? && "name" in entry.fields && entry.fields["name"].Str? && ArtifactName(entry) == entry.fields["name"].s
  {
    hide IsRelative;
  }

  lemma NewArtifact(length: Blob -> nat, dir: Dir, entries: seq<Json>, i: nat, names: set<string>)
    requires AllArtifacts(length, dir, entries) && i < |entries|
    requires forall n :: n in names ==> exists k: nat :: k < i && ArtifactNamed(entries, k, n)
    ensures Snapshot.HasRelative(entries[i]) && HoldsArtifact(length, dir, entries[i])
    ensures Lower(ArtifactName(entries[i])) !in names
  {
    hide Lower, IsRelative;
    assert HoldsArtifact(length, dir, entries[i]);
    EmptyIsNoName();
  }

  lemma EmptyIsNoName()
    ensures !IsRelative("")
  {
    assert Split("")[0] == "" && !SafeName("");
  }

  lemma NextArtifact(entries: seq<Json>, read: seq<string>, wanted: seq<string>, i: nat)
    requires i < |entries| && read + ArtifactFiles(entries) == wanted
    ensures var name := "artifacts/" + ArtifactName(entries[i]);
            read + ArtifactFiles(entries)[..i] + [name] == read + ArtifactFiles(entries)[..i + 1] <= wanted
  {
    var names := ArtifactFiles(entries);
    assert names[..i] + [names[i]] == names[..i + 1];
    assert wanted == read + names[..i + 1] + names[i + 1..];
  }

  /** The generation that the pointer selects, and its manifest. */
  function GenerationOf(dir: Dir): string {
    if "FINAL" in dir && ParseObject(dir["FINAL"]).Some? && Get(ParseObject(dir["FINAL"]).value, "result_file").Str?
    then Get(ParseObject(dir["FINAL"]).value, "result_file").s else ""
  }

  function ResultOf(dir: Dir): map<string, Json> {
    if GenerationOf(dir) in dir && ParseObject(dir[GenerationOf(dir)]).Some? then ParseObject(dir[GenerationOf(dir)]).value else map[]
  }

  function ItemsOf(j: Json): seq<Json> {
    if j.Arr? then j.items else []
  }

  function ChunksOf(m: map<string, Json>, stream: string): seq<Json> {
    if Get(m, "streams").Obj? then ItemsOf(Get(Get(m, "streams").fields, stream)) else []
  }

  /** The pointer, the generation, and the first s streams. */
  function StreamFiles(dir: Dir, s: nat): seq<string> {
    var m := ResultOf(dir);
    ["FINAL"] + [GenerationOf(dir)] + (if s >= 1 then ChunkFiles("stdout", ChunksOf(m, "stdout")) else [])
    + (if s >= 2 then ChunkFiles("stderr", ChunksOf(m, "stderr")) else [])
  }

  function ResultFiles(dir: Dir): seq<string> {
    StreamFiles(dir, 2) + ArtifactFiles(ItemsOf(Get(ResultOf(dir), "artifacts")))
  }

  /** A complete result within the relay's limits, in a directory with nothing unexpected. */
  ghost predicate CompleteResult(limits: Limits, length: Blob -> nat, dir: Dir, job: string, listing: seq<Met>) {
    var m := ResultOf(dir);
    && Selects(length, dir, job, m) && IsResult(length, dir, m)
    && EqualsInt(Get(m, "protocol"), 2) && IsSafe(Get(m, "watcher_id")) && IsSafe(Get(m, "fence"))
    && Get(m, "streams").Obj? && Get(m, "streams").fields.Keys == {"stdout", "stderr"}
    && AllArtifacts(length, dir, ItemsOf(Get(m, "artifacts")))
    && Ample(limits, length, dir, ResultFiles(dir))
    && Bare(limits, set n | n in ResultFiles(dir), {"CLAIMED", "RUNNING"}, true, listing)
  }

  lemma ResultParts(limits: Limits, length: Blob -> nat, dir: Dir, job: string, listing: seq<Met>)
    requires CompleteResult(limits, length, dir, job, listing)
    ensures var wanted, m := ResultFiles(dir), ResultOf(dir);
            && |wanted| >= 2 && wanted[0] == "FINAL" && wanted[1] == GenerationOf(dir)
            && "FINAL" in dir && length(dir["FINAL"]) <= 4096 && GenerationOf(dir) in dir && Selects(length, dir, job, m)
            && length(dir[GenerationOf(dir)]) <= limits.maxFileBytes
            && EqualsInt(Get(m, "protocol"), 2) && IsSafe(Get(m, "watcher_id")) && IsSafe(Get(m, "fence"))
            && Ample(limits, length, dir, wanted)
  {
    hide IsResult, AllArtifacts, Bare, SafeName, IsGeneration, ChunkFiles, ArtifactFiles, IsRelative, Sizes;
    assert ResultFiles(dir)[1] == GenerationOf(dir);
  }

  lemma RestParts(limits: Limits, length: Blob -> nat, dir: Dir, job: string, listing: seq<Met>)
    requires CompleteResult(limits, length, dir, job, listing)
    ensures var wanted, m := ResultFiles(dir), ResultOf(dir);
            && Get(m, "streams").Obj? && Get(m, "streams").fields.Keys == {"stdout", "stderr"}
            && Get(m, "artifacts").Arr? && |Get(m, "artifacts").items| <= limits.maxFiles && AllArtifacts(length, dir, Get(m, "artifacts").items)
            && wanted == StreamFiles(dir, 2) + ArtifactFiles(Get(m, "artifacts").items) && StreamFiles(dir, 0) == ["FINAL"] + [GenerationOf(dir)]
            && Bare(limits, set n | n in wanted, {"CLAIMED", "RUNNING"}, true, listing)
  {
    hide Selects, AllArtifacts, Bare, HasStream, HoldsArtifact, ChunkFiles, IsRelative, Sizes;
  }

  /** Stream s of a complete result. */
  lemma StreamParts(limits: Limits, length: Blob -> nat, dir: Dir, job: string, listing: seq<Met>, s: nat)
    requires CompleteResult(limits, length, dir, job, listing) && s < 2
    ensures var stream, m := STREAMS[s], ResultOf(dir);
            var count, entries := Get(m, stream + "_chunks"), Get(Get(m, "streams").fields, stream);
            && InRange(count, 0, 4096) && entries.Arr? && |entries.items| == count.n && AllChunks(length, dir, stream, entries.items)
            && StreamFiles(dir, s) + ChunkFiles(stream, entries.items) == StreamFiles(dir, s + 1) <= ResultFiles(dir)
  {
    hide Selects, AllArtifacts, Bare, HoldsArtifact, IsChunk, HoldsChunk, ChunkFiles, ArtifactFiles, IsRelative, Sizes;
    assert HasStream(length, dir, ResultOf(dir), STREAMS[s]);
    var m := ResultOf(dir);
    assert ChunksOf(m, STREAMS[s]) == Get(Get(m, "streams").fields, STREAMS[s]).items;
    assert STREAMS[0] == "stdout" && STREAMS[1] == "stderr";
    if s == 0 {
      assert ResultFiles(dir) == StreamFiles(dir, 1) + (ChunkFiles("stderr", ChunksOf(m, "stderr")) + ArtifactFiles(ItemsOf(Get(m, "artifacts"))));
    }
  }

  /** The walk of the directory meets few entries, all of them expected. */
  ghost predicate Bare(limits: Limits, wanted: set<string>, extra: set<string>, result: bool, listing: seq<Met>) {
    |listing| <= limits.maxEntries
    && forall i :: 0 <= i < |listing| ==> IsRelative(listing[i].name) && ExpectedIn(wanted, extra, result, listing[i])
  }

  class Snapshot {
    const limits: Limits
    const length: Blob -> nat
    const look: (nat, string) -> Option<Blob> // what a stable read finds at a moment
    var clock: nat
    var files: map<string, Blob>
    var order: seq<string>
    var total: nat

    ghost predicate Valid()
      reads this`files, this`order, this`total
    {
      && (forall n {:trigger n in files} {:trigger n in order} :: n in order <==> n in files)
      && (forall i, j :: 0 <= i < j < |order| ==> order[i] != order[j])
      && |order| <= limits.maxFiles
      && (forall n :: n in files ==> length(files[n]) <= limits.maxFileBytes)
      && total == Sizes(length, order, files) <= limits.maxPublicationBytes
    }

    constructor (limits: Limits, length: Blob -> nat, look: (nat, string) -> Option<Blob>)
      ensures Valid() && files == map[] && order == [] && this.limits == limits && this.length == length && this.look == look
    {
      this.limits, this.length, this.look := limits, length, look;
      clock, files, order, total := 0, map[], [], 0;
    }

    /** One stable read of at most `cap` bytes. */
    method StableRead(name: string, cap: nat) returns (r: Option<Blob>)
      modifies this`clock
      ensures clock == old(clock) + 1
      ensures r == (var b := look(old(clock), name); if b.Some? && length(b.value) <= cap then b else None)
    {
      r := look(clock, name);
      clock := clock + 1;
      if r.Some? && length(r.value) > cap { r := None; }
    }

    /** The next look finds the file, within all budgets. */
    ghost predicate Readable(name: string, limit: Option<nat>)
      reads this
    {
      && |files| < limits.maxFiles && look(clock, name).Some?
      && var n := length(look(clock, name).value);
         n <= limits.maxFileBytes && total + n <= limits.maxPublicationBytes && (limit.Some? ==> n <= limit.value)
    }

    /** So far the files of this list were read, as the directory holds them. */
    ghost predicate Along(dir: Dir, wanted: seq<string>)
      reads this`files, this`order
    {
      order <= wanted && forall n :: n in files ==> n in dir && files[n] == dir[n]
    }

    lemma NextIsReadable(dir: Dir, wanted: seq<string>)
      requires Valid() && Stable(look, dir) && Ample(limits, length, dir, wanted) && Along(dir, wanted) && |order| < |wanted|
      ensures var name := wanted[|order|];
              && name in dir && name !in files && IsRelative(name) && look(clock, name) == Some(dir[name])
              && forall limit: Option<nat> {:trigger Readable(name, limit)} :: (limit.Some? ==> length(dir[name]) <= limit.value) ==> Readable(name, limit)
    {
      hide IsRelative;
      var k := |order|;
      assert |files| == k by { Distinct(order, files.Keys); }
      assert order == wanted[..k];
      assert total + length(dir[wanted[k]]) <= limits.maxPublicationBytes by {
        SizesGrow(length, wanted, dir, k);
        SizesFrame(length, order, files, dir);
      }
      assert forall i :: 0 <= i < k ==> order[i] == wanted[i] != wanted[k];
    }

    lemma OneFurther(dir: Dir, wanted: seq<string>, before: Dir, read: seq<string>)
      requires read <= wanted && |read| < |wanted| && (forall n :: n in before ==> n in dir && before[n] == dir[n])
      requires wanted[|read|] in dir && files == before[wanted[|read|] := dir[wanted[|read|]]] && order == read + [wanted[|read|]]
      ensures Along(dir, wanted)
    {
    }

    /** Reads a file once, within the remaining budgets; later reads give the same bytes. */
    method Read(name: string, limit: Option<nat>) returns (r: Option<Blob>)
      requires Valid()
      modifies this
      ensures Valid() && clock >= old(clock)
      ensures r.None? ==> files == old(files) && order == old(order)
      ensures r.Some? ==> name in files && r.value == files[name] && IsRelative(name)
      ensures r.Some? && name in old(files) ==> files == old(files) && order == old(order)
      ensures r.Some? && name !in old(files) ==> files == old(files)[name := r.value] && order == old(order) + [name]
      ensures r.Some? && name !in old(files) && limit.Some? ==> length(r.value) <= limit.value
      ensures r.Some? && name !in old(files) ==> r == look(old(clock), name)
      ensures r.Some? <==> IsRelative(name) && (name in old(files) || old(Readable(name, limit)))
    {
      hide IsRelative, Sizes;
      if !IsRelative(name) { return None; }
      if name in files { return Some(files[name]); }
      if |files| >= limits.maxFiles { return None; }
      var remaining := limits.maxPublicationBytes - total;
      var cap := if limits.maxFileBytes < remaining then limits.maxFileBytes else remaining;
      if limit.Some? && limit.value < cap { cap := limit.value; }
      r := StableRead(name, cap);
      if r.None? { return; }
      Store(name, r.value);
    }

    method Store(name: string, body: Blob)
      requires Valid() && name !in files && |files| < limits.maxFiles
      requires length(body) <= limits.maxFileBytes && total + length(body) <= limits.maxPublicationBytes
      modifies this`total, this`files, this`order
      ensures Valid() && files == old(files)[name := body] && order == old(order) + [name]
    {
      hide Sizes;
      Grow(name, body);
      total := total + length(body);
      files := files[name := body];
      order := order + [name];
    }

    lemma Grow(name: string, body: Blob)
      requires Valid() && name !in files
      ensures Sizes(length, order + [name], files[name := body]) == total + length(body)
      ensures |order| == |files|
    {
      assert (order + [name])[..|order|] == order;
      SizesFrame(length, order, files, files[name := body]);
      Distinct(order, files.Keys);
    }

    static lemma {:induction false} Distinct(order: seq<string>, names: set<string>)
      requires forall n :: n in order <==> n in names
      requires forall i, j :: 0 <= i < j < |order| ==> order[i] != order[j]
      ensures |order| == |names|
    {
      if order == [] {
        assert names == {};
      } else {
        var last := order[|order| - 1];
        assert order == order[..|order| - 1] + [last];
        Distinct(order[..|order| - 1], names - {last});
      }
    }

    /** Reading along a list of files of a directory that nobody changes. */
    ghost predicate Ready(dir: Dir, wanted: seq<string>)
      reads this`files, this`order
    {
      Stable(look, dir) && Ample(limits, length, dir, wanted) && Along(dir, wanted)
    }

    /** Reads the payload of a manifest entry and compares size and digest. */
    method Payload(name: string, entry: map<string, Json>, limit: Option<nat>, ghost dir: Dir, ghost wanted: seq<string>) returns (ok: bool)
      requires Valid()
      modifies this
      ensures Valid() && clock >= old(clock)
      ensures old(Ready(dir, wanted)) && old(order) + [name] <= wanted && HasPayload(length, dir, name, entry, limit) ==>
                ok && Along(dir, wanted) && order == old(order) + [name]
      ensures forall n :: n in old(files) ==> n in files && files[n] == old(files)[n]
      ensures ok ==> "size" in entry && "sha256" in entry && entry["size"].Int? && entry["size"].n >= 0 && entry["sha256"].Hex?
      ensures ok ==> HoldsPayload(length, files, name, entry["size"].n, entry["sha256"])
      ensures ok && limit.Some? ==> entry["size"].n <= limit.value
      ensures old(order) <= order && forall n :: n in files ==> n in old(files) || n == name
    {
      hide IsRelative, Sizes, Ample;
      ghost var expected := Ready(dir, wanted) && order + [name] <= wanted && HasPayload(length, dir, name, entry, limit);
      ghost var before, read := files, order;
      if expected {
        assert wanted[|order|] == (order + [name])[|order|] == name;
        NextIsReadable(dir, wanted);
      }
      if "size" !in entry || "sha256" !in entry { return false; }
      if !entry["size"].Int? || entry["size"].n < 0 || (limit.Some? && entry["size"].n > limit.value) || !entry["sha256"].Hex? { return false; }
      var body := Read(name, Some(entry["size"].n));
      if body.None? { return false; }
      if expected { OneFurther(dir, wanted, before, read); }
      return length(body.value) == entry["size"].n && Hex(Sha(body.value)) == entry["sha256"];
    }

    /** Reads every file again and compares. */
    method Unchanged() returns (ok: bool)
      requires Valid()
      modifies this`clock
      ensures clock >= old(clock)
      ensures ok ==> forall n :: n in files ==> exists t: nat :: old(clock) <= t < clock && look(t, n) == Some(files[n])
      ensures Stable(look, files) ==> ok
    {
      for i := 0 to |order|
        invariant clock == old(clock) + i
        invariant forall k :: 0 <= k < i ==> look(old(clock) + k, order[k]) == Some(files[order[k]])
      {
        var again := StableRead(order[i], length(files[order[i]]));
        if again != Some(files[order[i]]) { return false; }
      }
      forall n | n in files ensures exists t: nat :: old(clock) <= t < clock && look(t, n) == Some(files[n]) {
        assert n in order;
        var k :| 0 <= k < |order| && order[k] == n;
        assert look(old(clock) + k, order[k]) == Some(files[n]);
      }
      return true;
    }

    /** Nothing is in the source directory but what the publication accounts for. */
    method ExactTree(extra: set<string>, result: bool, listing: seq<Met>) returns (ok: bool)
      ensures ok <==> |listing| <= limits.maxEntries && forall i :: 0 <= i < |listing| ==> IsRelative(listing[i].name) && Expected(files, extra, result, listing[i])
    {
      hide Expected, IsRelative;
      for i := 0 to |listing|
        invariant i <= limits.maxEntries
        invariant forall k :: 0 <= k < i ==> IsRelative(listing[k].name) && Expected(files, extra, result, listing[k])
      {
        if i + 1 > limits.maxEntries { return false; }
        if !IsRelative(listing[i].name) { return false; }
        if !Expected(files, extra, result, listing[i]) { return false; }
      }
      return true;
    }

    /** The files in reading order, the marker moved to the end. */
    method Arrange(marker: string) returns (list: seq<PubFile>)
      requires Valid() && marker in files
      ensures DirOf(list) == files && |list| == |order| > 0 && list == Sealed(order, files, marker)
      ensures list[|list| - 1] == PubFile(marker, files[marker])
      ensures forall i :: 0 <= i < |list| - 1 ==> list[i].name != marker
      ensures NamesDiffer(list) && Fits(limits, length, list)
    {
      hide *;
      ListsNames();
      list := [];
      assert order[..0] == [];
      NoOthers(files, marker);
      for i := 0 to |order|
        invariant list == Others(order[..i], files, marker)
      {
        OthersAppend(order, files, marker, i);
        if order[i] != marker { list := list + [PubFile(order[i], files[order[i]])]; }
      }
      assert order[..|order|] == order;
      OthersFacts(length, order, files, marker);
      var last := PubFile(marker, files[marker]);
      DirOfAppend(list, last);
      AddName(list, last);
      BytesAppend(length, list, last);
      assert DirOf(list + [last]) == files;
      list := list + [last];
      SealedIs(order, files, marker);
      ItFits(limits, length, list);
    }

    lemma ListsNames()
      requires Valid()
      ensures forall n :: n in order <==> n in files
      ensures forall i :: 0 <= i < |order| ==> order[i] in files
      ensures forall i, j :: 0 <= i < j < |order| ==> order[i] != order[j]
      ensures |order| <= limits.maxFiles && Sizes(length, order, files) <= limits.maxPublicationBytes
      ensures forall n :: n in files ==> length(files[n]) <= limits.maxFileBytes
    {
    }

    static predicate HasName(entry: Json) {
      entry.Obj? && "name" in entry.fields && entry.fields["name"].Str? && SafeName(entry.fields["name"].s)
    }

    /** The bytes of one entry. */
    method ReadUpload(entry: Json, ghost dir: Dir, ghost wanted: seq<string>) returns (ok: bool)
      requires Valid() && HasName(entry)
      modifies this
      ensures Valid() && clock >= old(clock)
      ensures var name := "uploads/" + entry.fields["name"].s;
              && (forall n :: n in files ==> n in old(files) || n == name)
              && (old(Ready(dir, wanted)) && old(order) + [name] <= wanted && IsUpload(entry) && HoldsUpload(length, dir, entry) ==>
                    ok && Along(dir, wanted) && order == old(order) + [name])
      ensures forall n :: n in old(files) ==> n in files && files[n] == old(files)[n]
      ensures ok ==> IsUpload(entry) && HoldsUpload(length, files, entry)
    {
      hide SafeName, Sizes, Valid, Ready, Along;
      ok := Payload("uploads/" + entry.fields["name"].s, entry.fields, None, dir, wanted);
    }

    /** The manifest's entries, each read and checked; their names differ in more than
        case, and their sizes add up to the committed total. */
    method ReadUploads(entries: seq<Json>, committed: Json, ghost dir: Dir, ghost wanted: seq<string>) returns (ok: bool)
      requires Valid()
      modifies this
      ensures Valid() && clock >= old(clock)
      ensures ok ==> forall n :: n in files ==> n in old(files) || IsUploadFile(entries, |entries|, n)
      ensures old(Ready(dir, wanted)) && AreUploads(entries) && old(order) + UploadFiles(entries) == wanted && AllHeld(length, dir, entries, committed) ==>
                ok && Along(dir, wanted) && order == wanted
      ensures forall n :: n in old(files) ==> n in files && files[n] == old(files)[n]
      ensures ok ==> AreUploads(entries) && CaseDistinct(entries) && committed == Int(TotalSize(entries))
      ensures ok ==> forall i :: 0 <= i < |entries| ==> HoldsUpload(length, files, entries[i])
    {
      hide *;
      var names: set<string> := {};
      var sum := 0;
      NoUploads(entries);
      ghost var read := order;
      ghost var expected := Ready(dir, wanted) && AreUploads(entries) && order + UploadFiles(entries) == wanted && AllHeld(length, dir, entries, committed);
      if expected { Begun(dir, wanted); }
      for i := 0 to |entries|
        invariant Valid() && clock >= old(clock)
        invariant expected ==> Along(dir, wanted) && order == read + UploadFiles(entries)[..i]
        invariant forall n :: n in files ==> n in old(files) || IsUploadFile(entries, i, n)
        invariant forall n :: n in names ==> exists k: nat :: k < i && Named(entries, k, n)
        invariant forall n :: n in old(files) ==> n in files && files[n] == old(files)[n]
        invariant AreUploads(entries[..i])
        invariant forall k :: 0 <= k < i ==> IsUpload(entries[k]) && HoldsUpload(length, files, entries[k])
        invariant forall j, k :: 0 <= j < k < i ==> Lower(UploadName(entries[j])) != Lower(UploadName(entries[k]))
        invariant forall k :: 0 <= k < i ==> Lower(UploadName(entries[k])) in names
        invariant sum == TotalSize(entries[..i])
      {
        if expected { NewUpload(length, dir, entries, committed, i, names); }
        if !HasName(entries[i]) { return false; }
        UploadFileIs(entries[i]);
        var name := Lower(entries[i].fields["name"].s);
        if name in names { return false; }
        names := names + {name};
        ghost var before := files;
        if expected {
          StillReady(dir, wanted);
          NextUpload(read, entries, wanted, i);
        }
        ok := ReadUpload(entries[i], dir, wanted);
        if !ok { return; }
        OneUploadMore(entries, i);
        forall k | 0 <= k < i ensures HoldsUpload(length, files, entries[k]) {
          HoldsOn(length, before, files, entries[k]);
        }
        sum := sum + UploadSize(entries[i]);
      }
      assert entries[..|entries|] == entries;
      AreDistinct(entries);
      if expected { TheTotal(length, dir, entries, committed); }
      return committed == Int(sum);
    }

    lemma Begun(dir: Dir, wanted: seq<string>)
      requires Ready(dir, wanted)
      ensures Along(dir, wanted) && Stable(look, dir) && Ample(limits, length, dir, wanted)
    {
    }

    lemma StillReady(dir: Dir, wanted: seq<string>)
      requires Along(dir, wanted) && Stable(look, dir) && Ample(limits, length, dir, wanted)
      ensures Ready(dir, wanted)
    {
    }

    static lemma HoldsOn(length: Blob -> nat, files: Dir, files': Dir, entry: Json)
      requires IsUpload(entry) && HoldsUpload(length, files, entry)
      requires forall n :: n in files ==> n in files' && files'[n] == files[n]
      ensures HoldsUpload(length, files', entry)
    {
    }

    /** The marker and the manifest it commits to, and every upload. */
    method ReadRequest(job: string, ghost dir: Dir, ghost listing: seq<Met>) returns (r: Option<map<string, Json>>)
      requires Valid() && files == map[]
      modifies this
      ensures Valid()
      ensures r.Some? ==> forall n :: n in files ==> IsRequestFile(r.value, n)
      ensures Stable(look, dir) && CompleteRequest(limits, length, dir, job, listing) ==>
                && r.Some? && "uploads" in r.value && r.value["uploads"].Arr? && AreUploads(r.value["uploads"].items)
                && order == RequestFiles(r.value["uploads"].items) && Along(dir, order)
                && ParseObject(dir["request.json"]) == r
      ensures r.Some? ==>
                && "COMMIT" in files && "request.json" in files && ParseObject(files["request.json"]) == r
                && IsRequest(length, files, job, r.value)
    {
      hide SafeName, Lower, Sizes, Valid, IsRelative, AreUploads, CaseDistinct, HoldsUpload, TotalSize, IsRequest, CompleteRequest, Ample, Stable, AllHeld, Along, Readable, UploadFiles;
      ghost var expected := Stable(look, dir) && CompleteRequest(limits, length, dir, job, listing);
      ghost var wanted: seq<string> := [];
      if expected {
        CompleteParts(limits, length, dir, job, listing);
        wanted := RequestFiles(ParseObject(dir["request.json"]).value["uploads"].items);
        NothingRead(dir, wanted);
        NextIsReadable(dir, wanted);
      }
      var commitBody := Read("COMMIT", Some(4096));
      if commitBody.None? { return None; }
      if expected {
        OneFurther(dir, wanted, map[], []);
        NextIsReadable(dir, wanted);
      }
      ghost var before := files;
      var body := Read("request.json", Some(1024 * 1024));
      if body.None? { return None; }
      if expected {
        SoFar(dir, wanted, before);
        StillReady(dir, wanted);
      }
      var commit, manifest := ParseObject(commitBody.value), ParseObject(body.value);
      if commit.None? || manifest.None? { return None; }
      if !EqualsInt(Get(commit.value, "protocol"), 2) || !EqualsInt(Get(manifest.value, "protocol"), 2) { return None; }
      if Get(commit.value, "job_id") != Str(job) || Get(manifest.value, "job_id") != Str(job) { return None; }
      if Hex(Sha(body.value)) != Get(commit.value, "manifest_sha256") { return None; }
      var uploads := Get(manifest.value, "uploads");
      if !uploads.Arr? || |uploads.items| > limits.maxFiles - 2 { return None; }
      var ok := ReadUploads(uploads.items, Get(commit.value, "upload_bytes"), dir, wanted);
      if !ok { return None; }
      ItIsRequest(length, files, job, commit.value, manifest.value);
      return manifest;
    }

    lemma NothingRead(dir: Dir, wanted: seq<string>)
      requires Valid() && files == map[]
      ensures Along(dir, wanted) && order == []
    {
      assert forall i :: 0 <= i < |order| ==> order[i] in files;
    }

    lemma SoFar(dir: Dir, wanted: seq<string>, before: Dir)
      requires |wanted| >= 2 && wanted[0] == "COMMIT" && wanted[1] == "request.json" && wanted[1] in dir
      requires forall n :: n in before ==> n in dir && before[n] == dir[n]
      requires order == ["COMMIT"] + ["request.json"] && files == before["request.json" := dir["request.json"]]
      ensures Along(dir, wanted)
    {
      assert wanted == order + wanted[2..];
    }

    /** The last checks of a snapshot: nothing else in the directory, and every file reads
        the same again; then the list, marker last. */
    method Seal(marker: string, extra: set<string>, result: bool, listing: seq<Met>) returns (r: Option<seq<PubFile>>)
      requires Valid() && marker in files
      modifies this`clock
      ensures r.Some? ==>
                && r.value != [] && r.value[|r.value| - 1].name == marker && DirOf(r.value) == files
                && (forall i :: 0 <= i < |r.value| - 1 ==> r.value[i].name != marker)
                && NamesDiffer(r.value) && Fits(limits, length, r.value)
      ensures r.Some? ==> forall n :: n in files ==> exists t: nat :: t < clock && look(t, n) == Some(files[n])
      ensures r.Some? ==> (forall i :: 0 <= i < |order| ==> order[i] in files) && r.value == Sealed(order, files, marker)
      ensures r.Some? ==> forall i :: 0 <= i < |listing| ==> Expected(files, extra, result, listing[i])
      ensures Stable(look, files) && Bare(limits, files.Keys, extra, result, listing) ==> r.Some?
    {
      hide Sizes, Valid, ExpectedIn, IsRelative, DirOf, Fits, NamesDiffer, Stable;
      var ok := ExactTree(extra, result, listing);
      if !ok { return None; }
      ok := Unchanged();
      if !ok { return None; }
      ListsNames();
      var list := Arrange(marker);
      return Some(list);
    }

    /** A complete request, checked against its manifest and read twice. */
    method RequestSnapshot(job: string, listing: seq<Met>) returns (r: Option<seq<PubFile>>)
      requires Valid() && files == map[]
      modifies this
      ensures Valid()
      ensures r.Some? ==>
                && r.value != [] && r.value[|r.value| - 1].name == "COMMIT" && DirOf(r.value) == files
                && (forall i :: 0 <= i < |r.value| - 1 ==> r.value[i].name != "COMMIT")
                && NamesDiffer(r.value) && Fits(limits, length, r.value)
      ensures r.Some? ==>
                && "request.json" in files && ParseObject(files["request.json"]).Some?
                && IsRequest(length, files, job, ParseObject(files["request.json"]).value)
      ensures r.Some? ==> forall n :: n in files ==> exists t: nat :: t < clock && look(t, n) == Some(files[n])
      ensures r.Some? ==> forall i :: 0 <= i < |listing| ==> Expected(files, {}, false, listing[i])
      ensures r.Some? ==> forall n :: n in files ==> IsRequestFile(ParseObject(files["request.json"]).value, n)
      ensures forall dir {:trigger Stable(look, dir)} :: Stable(look, dir) && CompleteRequest(limits, length, dir, job, listing) ==>
                r.Some? && r.value == RequestList(dir)
    {
      hide *;
      ghost var dir: Dir := map[];
      if d: Dir :| Stable(look, d) && CompleteRequest(limits, length, d, job, listing) { dir := d; }
      var manifest := ReadRequest(job, dir, listing);
      if manifest.None? { return None; }
      if Stable(look, dir) && CompleteRequest(limits, length, dir, job, listing) {
        CompleteParts(limits, length, dir, job, listing);
        AllRead(dir, order);
      }
      r := Seal("COMMIT", {}, false, listing);
      if r.Some? {
        forall d {:trigger Stable(look, d)} | Stable(look, d) && CompleteRequest(limits, length, d, job, listing) ensures r.value == RequestList(d) {
          CompleteParts(limits, length, d, job, listing);
          SameRequest(dir, d, listing, job);
        }
      }
    }

    /** All complete directories that the looks agree with give the same list. */
    lemma SameRequest(dir: Dir, d: Dir, listing: seq<Met>, job: string)
      requires Stable(look, dir) && CompleteRequest(limits, length, dir, job, listing)
      requires Stable(look, d) && CompleteRequest(limits, length, d, job, listing)
      requires "request.json" in dir && ParseObject(dir["request.json"]).Some?
      requires var m := ParseObject(dir["request.json"]).value;
               "uploads" in m && m["uploads"].Arr? && AreUploads(m["uploads"].items) && order == RequestFiles(m["uploads"].items)
      requires Along(dir, order) && "COMMIT" in files && forall i :: 0 <= i < |order| ==> order[i] in files
      ensures Sealed(order, files, "COMMIT") == RequestList(d)
    {
      hide SafeName, Lower, IsUpload, CaseDistinct, HoldsUpload, TotalSize, IsRequest, IsRelative, Sizes, Bare, Others;
      assert look(0, "request.json") == Some(dir["request.json"]) && look(0, "request.json") == Some(d["request.json"]);
      forall i | 0 <= i < |order| ensures order[i] in d && d[order[i]] == files[order[i]] {
        assert look(0, order[i]) == Some(dir[order[i]]) && look(0, order[i]) == Some(d[order[i]]);
      }
      assert order[0] == "COMMIT";
      OthersSame(order, files, d, "COMMIT");
    }

    lemma AllRead(dir: Dir, wanted: seq<string>)
      requires Valid() && Along(dir, wanted) && order == wanted && Stable(look, dir)
      ensures Stable(look, files) && files.Keys == set n | n in wanted
    {
    }

    /** All chunks of one stream. */
    method ReadChunks(stream: string, entries: seq<Json>, ghost dir: Dir, ghost wanted: seq<string>) returns (ok: bool)
      requires Valid()
      modifies this
      ensures Valid() && clock >= old(clock)
      ensures old(Ready(dir, wanted)) && old(order) + ChunkFiles(stream, entries) <= wanted && AllChunks(length, dir, stream, entries) ==>
                ok && Along(dir, wanted) && order == old(order) + ChunkFiles(stream, entries)
      ensures forall n :: n in old(files) ==> n in files && files[n] == old(files)[n]
      ensures forall n :: n in files ==> n in old(files) || stream + "/" <= n
      ensures ok ==> forall i :: 0 <= i < |entries| ==> IsChunk(entries[i]) && HoldsChunk(length, files, stream, i, entries[i])
    {
      hide Sizes, Valid, Pad, Ready, Along, ChunkFiles, ChunkName, IsChunk, HasPayload;
      ghost var read := order;
      ghost var expected := Ready(dir, wanted) && order + ChunkFiles(stream, entries) <= wanted && AllChunks(length, dir, stream, entries);
      NoChunks(stream, entries);
      if expected { Begun(dir, wanted); }
      for i := 0 to |entries|
        invariant Valid() && clock >= old(clock)
        invariant expected ==> Along(dir, wanted) && order == read + ChunkFiles(stream, entries)[..i]
        invariant forall n :: n in files ==> n in old(files) || stream + "/" <= n
        invariant forall n :: n in old(files) ==> n in files && files[n] == old(files)[n]
        invariant forall k :: 0 <= k < i ==> IsChunk(entries[k]) && HoldsChunk(length, files, stream, k, entries[k])
      {
        if !entries[i].Obj? { return false; }
        ghost var before := files;
        ChunkNameIs(stream, i);
        if expected {
          StillReady(dir, wanted);
          NextChunk(length, dir, stream, entries, read, wanted, i);
        }
        ok := Payload(ChunkName(stream, i), entries[i].fields, Some(65536), dir, wanted);
        if !ok { return; }
        ThisChunk(length, files, stream, i, entries[i]);
        forall k | 0 <= k < i ensures HoldsChunk(length, files, stream, k, entries[k]) {
          ChunkOn(length, before, files, stream, k, entries[k]);
        }
      }
      return true;
    }

    static predicate HasRelative(entry: Json) {
      entry.Obj? && "name" in entry.fields && entry.fields["name"].Str? && IsRelative(entry.fields["name"].s)
    }

    /** The bytes of one artifact. */
    method ReadArtifact(entry: Json, ghost dir: Dir, ghost wanted: seq<string>) returns (ok: bool)
      requires Valid() && HasRelative(entry)
      modifies this
      ensures Valid() && clock >= old(clock)
      ensures forall n :: n in old(files) ==> n in files && files[n] == old(files)[n]
      ensures forall n :: n in files ==> n in old(files) || "artifacts/" <= n
      ensures ok ==> HoldsArtifact(length, files, entry)
      ensures old(Ready(dir, wanted)) && old(order) + ["artifacts/" + ArtifactName(entry)] <= wanted && HoldsArtifact(length, dir, entry) ==>
                ok && Along(dir, wanted) && order == old(order) + ["artifacts/" + ArtifactName(entry)]
    {
      hide IsRelative, Sizes, Valid, Ready, Along;
      ok := Payload("artifacts/" + entry.fields["name"].s, entry.fields, None, dir, wanted);
    }

    /** All artifacts, under distinct relative names. */
    method ReadArtifacts(entries: seq<Json>, ghost dir: Dir, ghost wanted: seq<string>) returns (ok: bool)
      requires Valid()
      modifies this
      ensures Valid() && clock >= old(clock)
      ensures old(Ready(dir, wanted)) && old(order) + ArtifactFiles(entries) == wanted && AllArtifacts(length, dir, entries) ==>
                ok && Along(dir, wanted) && order == wanted
      ensures forall n :: n in old(files) ==> n in files && files[n] == old(files)[n]
      ensures forall n :: n in files ==> n in old(files) || "artifacts/" <= n
      ensures ok ==> forall i :: 0 <= i < |entries| ==> HoldsArtifact(length, files, entries[i])
      ensures ok ==> forall i, j :: 0 <= i < j < |entries| ==> Lower(ArtifactName(entries[i])) != Lower(ArtifactName(entries[j]))
    {
      hide *;
      var names: set<string> := {};
      ghost var read := order;
      ghost var expected := Ready(dir, wanted) && order + ArtifactFiles(entries) == wanted && AllArtifacts(length, dir, entries);
      NoArtifacts(entries);
      if expected { Begun(dir, wanted); }
      for i := 0 to |entries|
        invariant Valid() && clock >= old(clock)
        invariant expected ==> Along(dir, wanted) && order == read + ArtifactFiles(entries)[..i]
        invariant forall n :: n in names ==> exists k: nat :: k < i && ArtifactNamed(entries, k, n)
        invariant forall n :: n in files ==> n in old(files) || "artifacts/" <= n
        invariant forall n :: n in old(files) ==> n in files && files[n] == old(files)[n]
        invariant forall k :: 0 <= k < i ==> HoldsArtifact(length, files, entries[k])
        invariant forall j, k :: 0 <= j < k < i ==> Lower(ArtifactName(entries[j])) != Lower(ArtifactName(entries[k]))
        invariant forall k :: 0 <= k < i ==> Lower(ArtifactName(entries[k])) in names
      {
        var entry := entries[i];
        if expected { NewArtifact(length, dir, entries, i, names); }
        if !HasRelative(entry) { return false; }
        RelativeIs(entry);
        var name := Lower(entry.fields["name"].s);
        if name in names { return false; }
        names := names + {name};
        ghost var before := files;
        if expected {
          StillReady(dir, wanted);
          NextArtifact(entries, read, wanted, i);
        }
        ok := ReadArtifact(entry, dir, wanted);
        if !ok { return; }
        LastNamed(entries, i);
        forall k | 0 <= k < i ensures HoldsArtifact(length, files, entries[k]) {
          ArtifactOn(length, before, files, entries[k]);
        }
      }
      assert ArtifactFiles(entries)[..|entries|] == ArtifactFiles(entries);
      return true;
    }

    /** The pointer and the generation it selects, with matching identities and digest. */
    method ReadSelected(job: string, ghost dir: Dir, ghost listing: seq<Met>) returns (r: Option<map<string, Json>>)
      requires Valid() && files == map[]
      modifies this
      ensures Valid()
      ensures Stable(look, dir) && CompleteResult(limits, length, dir, job, listing) ==>
                r == Some(ResultOf(dir)) && Along(dir, ResultFiles(dir)) && order == ["FINAL"] + [GenerationOf(dir)]
      ensures r.Some? ==> Selects(length, files, job, r.value) && forall n :: n in files ==> IsResultName(n)
    {
      hide Sizes, Valid, IsRelative, SafeName, IsGeneration, CompleteResult, Ample, Stable, Along, Readable, ResultFiles, IsResult, Bare, AllArtifacts;
      ghost var expected := Stable(look, dir) && CompleteResult(limits, length, dir, job, listing);
      ghost var wanted := ResultFiles(dir);
      if expected {
        ResultParts(limits, length, dir, job, listing);
        NothingRead(dir, wanted);
        NextIsReadable(dir, wanted);
      }
      var finalBody := Read("FINAL", Some(4096));
      if finalBody.None? { return None; }
      if expected {
        OneFurther(dir, wanted, map[], []);
        NextIsReadable(dir, wanted);
      }
      ghost var before := files;
      var final := ParseObject(finalBody.value);
      if final.None? || !Get(final.value, "result_file").Str? { return None; }
      var generation := Get(final.value, "result_file").s;
      if !SafeName(generation) || !IsGeneration(generation) { return None; }
      assert generation != "FINAL" by { GenerationIsLong(generation); }
      var body := Read(generation, Some(limits.maxFileBytes));
      if body.None? { return None; }
      if expected { SoFarResult(dir, wanted, before, generation); }
      var m := ParseObject(body.value);
      if m.None? { return None; }
      if !EqualsInt(Get(m.value, "protocol"), 2) || Get(m.value, "job_id") != Str(job) { return None; }
      if Get(m.value, "job_id") != Get(final.value, "job_id") || Get(m.value, "watcher_id") != Get(final.value, "watcher_id")
         || Get(m.value, "fence") != Get(final.value, "fence") { return None; }
      if Hex(Sha(body.value)) != Get(final.value, "result_sha256") { return None; }
      if !IsSafe(Get(m.value, "watcher_id")) || !IsSafe(Get(m.value, "fence")) { return None; }
      return m;
    }

    lemma SoFarResult(dir: Dir, wanted: seq<string>, before: Dir, generation: string)
      requires |wanted| >= 2 && wanted[0] == "FINAL" && wanted[1] == generation && generation in dir
      requires forall n :: n in before ==> n in dir && before[n] == dir[n]
      requires order == ["FINAL"] + [generation] && files == before[generation := dir[generation]]
      ensures Along(dir, wanted)
    {
      assert wanted == order + wanted[2..];
    }

    static lemma GenerationIsLong(s: string)
      requires IsGeneration(s)
      ensures |s| == 44
    {
    }

    /** The pointer, the generation and the first s streams of the directory were read. */
    ghost predicate AtStream(dir: Dir, s: nat)
      reads this`files, this`order
    {
      Along(dir, ResultFiles(dir)) && order == StreamFiles(dir, s)
    }

    /** Nobody changes the directory, which holds a complete result, selected just now. */
    ghost predicate Expecting(dir: Dir, job: string, listing: seq<Met>)
      reads this`files, this`order
    {
      Stable(look, dir) && CompleteResult(limits, length, dir, job, listing) && AtStream(dir, 0)
    }

    lemma ExpectingIs(dir: Dir, job: string, listing: seq<Met>)
      ensures Expecting(dir, job, listing) <==> Stable(look, dir) && CompleteResult(limits, length, dir, job, listing) && AtStream(dir, 0)
    {
      hide Stable, CompleteResult, AtStream;
    }

    lemma AtStreamIs(dir: Dir, s: nat)
      ensures AtStream(dir, s) <==> Along(dir, ResultFiles(dir)) && order == StreamFiles(dir, s)
    {
      hide Along, ResultFiles, StreamFiles;
    }

    /** The two declared streams, all their chunks. */
    method ReadStreams(job: string, result: map<string, Json>, ghost dir: Dir, ghost listing: seq<Met>) returns (ok: bool)
      requires Valid() && Selects(length, files, job, result) && forall n :: n in files ==> IsResultName(n)
      modifies this
      ensures Valid() && Selects(length, files, job, result) && "FINAL" in files && forall n :: n in files ==> IsResultName(n)
      ensures ok ==> HasStream(length, files, result, STREAMS[0]) && HasStream(length, files, result, STREAMS[1])
      ensures old(Expecting(dir, job, listing)) && result == ResultOf(dir) ==> ok && AtStream(dir, 2)
    {
      hide *;
      ghost var wanted := ResultFiles(dir);
      ghost var expected := Expecting(dir, job, listing) && result == ResultOf(dir);
      if expected {
        ExpectingIs(dir, job, listing);
        ResultParts(limits, length, dir, job, listing);
        RestParts(limits, length, dir, job, listing);
      }
      SelectsFinal(length, files, job, result);
      var streams := Get(result, "streams");
      if !streams.Obj? || streams.fields.Keys != {"stdout", "stderr"} { return false; }
      StreamNames();
      for s := 0 to 2
        invariant Valid() && Selects(length, files, job, result) && "FINAL" in files
        invariant forall n :: n in files ==> IsResultName(n)
        invariant forall k :: 0 <= k < s ==> HasStream(length, files, result, STREAMS[k])
        invariant expected ==> AtStream(dir, s)
      {
        var stream := STREAMS[s];
        AtStreamIs(dir, s);
        if expected {
          StreamParts(limits, length, dir, job, listing, s);
          StillReady(dir, wanted);
        }
        var count, entries := Get(result, stream + "_chunks"), Get(streams.fields, stream);
        var range := InRange(count, 0, 4096);
        CountIs(count);
        if !range || !entries.Arr? || |entries.items| != count.n { return false; }
        ghost var before := files;
        ok := ReadChunks(stream, entries.items, dir, wanted);
        ItIsStream(length, files, result, stream);
        if !ok {
          Onward(length, before, files, job, result);
          AreResultNames(before, files, stream);
          return;
        }
        Onward(length, before, files, job, result);
        AreResultNames(before, files, stream);
        AtStreamIs(dir, s + 1);
      }
      return true;
    }

    static lemma StreamNames()
      ensures |STREAMS| == 2 && STREAMS[0] == "stdout" && STREAMS[1] == "stderr"
    {
    }

    static lemma CountIs(count: Json)
      ensures InRange(count, 0, 4096) ==> count.Int?
    {
    }

    static lemma ItIsStream(length: Blob -> nat, files: Dir, m: map<string, Json>, stream: string)
      ensures && Get(m, "streams").Obj?
              && (var count, entries := Get(m, stream + "_chunks"), Get(Get(m, "streams").fields, stream);
                  && InRange(count, 0, 4096) && entries.Arr? && |entries.items| == count.n
                  && forall i :: 0 <= i < |entries.items| ==> IsChunk(entries.items[i]) && HoldsChunk(length, files, stream, i, entries.items[i]))
              ==> HasStream(length, files, m, stream)
    {
      hide IsChunk, HoldsChunk;
    }

    static lemma AreResultNames(before: Dir, files: Dir, stream: string)
      requires stream in STREAMS && (forall n :: n in before ==> IsResultName(n)) && forall n :: n in files ==> n in before || stream + "/" <= n
      ensures forall n :: n in files ==> IsResultName(n)
    {
      hide IsGeneration;
      assert stream == "stdout" || stream == "stderr";
      assert "stdout" + "/" == "stdout/" && "stderr" + "/" == "stderr/";
    }

    /** A complete result, checked against its manifest and read twice. */
    method ResultSnapshot(job: string, listing: seq<Met>) returns (r: Option<seq<PubFile>>, ghost m: map<string, Json>)
      requires Valid() && files == map[]
      modifies this
      ensures Valid()
      ensures r.Some? ==>
                && r.value != [] && r.value[|r.value| - 1].name == "FINAL" && DirOf(r.value) == files
                && (forall i :: 0 <= i < |r.value| - 1 ==> r.value[i].name != "FINAL")
                && NamesDiffer(r.value) && Fits(limits, length, r.value)
      ensures r.Some? ==> forall n :: n in files ==> IsResultName(n)
      ensures r.Some? ==> Selects(length, files, job, m) && IsResult(length, files, m)
      ensures r.Some? ==> forall n :: n in files ==> exists t: nat :: t < clock && look(t, n) == Some(files[n])
      ensures r.Some? ==> forall i :: 0 <= i < |listing| ==> Expected(files, {"CLAIMED", "RUNNING"}, true, listing[i])
      ensures forall dir {:trigger Stable(look, dir)} :: Stable(look, dir) && CompleteResult(limits, length, dir, job, listing) ==> r.Some?
    {
      hide *;
      m := map[];
      ghost var dir: Dir := map[];
      if d: Dir :| Stable(look, d) && CompleteResult(limits, length, d, job, listing) { dir := d; }
      ghost var expected := Stable(look, dir) && CompleteResult(limits, length, dir, job, listing);
      ghost var wanted := ResultFiles(dir);
      if expected {
        ResultParts(limits, length, dir, job, listing);
        RestParts(limits, length, dir, job, listing);
      }
      var selected := ReadSelected(job, dir, listing);
      if selected.None? { return None, m; }
      var result := selected.value;
      m := result;
      AtStreamIs(dir, 0);
      ExpectingIs(dir, job, listing);
      var ok := ReadStreams(job, result, dir, listing);
      if !ok { return None, m; }
      AtStreamIs(dir, 2);
      StreamNames();
      var artifacts := Get(result, "artifacts");
      if !artifacts.Arr? || |artifacts.items| > limits.maxFiles { return None, m; }
      ghost var before := files;
      if expected { StillReady(dir, wanted); }
      ok := ReadArtifacts(artifacts.items, dir, wanted);
      if !ok { return None, m; }
      Onward(length, before, files, job, result);
      assert HasStream(length, before, result, STREAMS[0]) && HasStream(length, before, result, STREAMS[1]);
      ItIsResult(length, files, result);
      ArtifactNamesAre(before, files);
      if expected { AllRead(dir, wanted); }
      r := Seal("FINAL", {"CLAIMED", "RUNNING"}, true, listing);
    }

    static lemma ItIsResult(length: Blob -> nat, files: Dir, m: map<string, Json>)
      requires HasStream(length, files, m, STREAMS[0]) && HasStream(length, files, m, STREAMS[1])
      requires Get(m, "artifacts").Arr? && forall i :: 0 <= i < |Get(m, "artifacts").items| ==> HoldsArtifact(length, files, Get(m, "artifacts").items[i])
      ensures IsResult(length, files, m)
    {
      hide HasStream, HoldsArtifact;
    }

    static lemma ArtifactNamesAre(before: Dir, files: Dir)
      requires (forall n :: n in before ==> IsResultName(n)) && forall n :: n in files ==> n in before || "artifacts/" <= n
      ensures forall n :: n in files ==> IsResultName(n)
    {
      hide IsGeneration;
    }
  }

  lemma ItIsRequest(length: Blob -> nat, dir: Dir, job: string, commit: map<string, Json>, m: map<string, Json>)
    requires "COMMIT" in dir && ParseObject(dir["COMMIT"]) == Some(commit)
    requires "request.json" in dir && ParseObject(dir["request.json"]) == Some(m)
    requires EqualsInt(Get(commit, "protocol"), 2) && EqualsInt(Get(m, "protocol"), 2)
    requires Get(commit, "job_id") == Str(job) && Get(m, "job_id") == Str(job)
    requires Hex(Sha(dir["request.json"])) == Get(commit, "manifest_sha256")
    requires Get(m, "uploads").Arr? && AreUploads(Get(m, "uploads").items) && CaseDistinct(Get(m, "uploads").items)
    requires Get(commit, "upload_bytes") == Int(TotalSize(Get(m, "uploads").items))
    requires forall i :: 0 <= i < |Get(m, "uploads").items| ==> HoldsUpload(length, dir, Get(m, "uploads").items[i])
    ensures IsRequest(length, dir, job, m)
  {
    hide SafeName, Lower, TotalSize, HoldsUpload;
    assert UploadsOf(m) == Get(m, "uploads");
  }

  predicate IsSafe(j: Json) {
    j.Str? && SafeName(j.s)
  }

  predicate HoldsChunk(length: Blob -> nat, files: Dir, stream: string, index: nat, entry: Json) {
    && entry.Obj? && Get(entry.fields, "size").Int?
    && HoldsPayload(length, files, ChunkName(stream, index), Get(entry.fields, "size").n, Get(entry.fields, "sha256"))
  }

  function ArtifactName(entry: Json): string {
    if entry.Obj? && Get(entry.fields, "name").Str? then Get(entry.fields, "name").s else ""
  }

  predicate HoldsArtifact(length: Blob -> nat, files: Dir, entry: Json) {
    && entry.Obj? && Get(entry.fields, "size").Int? && IsRelative(ArtifactName(entry))
    && HoldsPayload(length, files, "artifacts/" + ArtifactName(entry), Get(entry.fields, "size").n, Get(entry.fields, "sha256"))
  }

  /** FINAL selects a generation whose bytes, identity and digest agree with it. */
  predicate Selects(length: Blob -> nat, files: Dir, job: string, m: map<string, Json>) {
    && "FINAL" in files && length(files["FINAL"]) <= 4096 && ParseObject(files["FINAL"]).Some?
    && var final := ParseObject(files["FINAL"]).value;
       && Get(final, "result_file").Str? && SafeName(Get(final, "result_file").s) && IsGeneration(Get(final, "result_file").s)
       && var generation := Get(final, "result_file").s;
          && generation in files && ParseObject(files[generation]) == Some(m)
          && Get(final, "result_sha256") == Hex(Sha(files[generation]))
          && Get(m, "job_id") == Get(final, "job_id") == Str(job)
          && Get(m, "watcher_id") == Get(final, "watcher_id") && Get(m, "fence") == Get(final, "fence")
  }

  /** A stream whose declared chunks are all there. */
  predicate HasStream(length: Blob -> nat, files: Dir, m: map<string, Json>, stream: string) {
    && Get(m, "streams").Obj?
    && var count, entries := Get(m, stream + "_chunks"), Get(Get(m, "streams").fields, stream);
       && InRange(count, 0, 4096) && entries.Arr? && |entries.items| == count.n
       && forall i :: 0 <= i < |entries.items| ==> IsChunk(entries.items[i]) && HoldsChunk(length, files, stream, i, entries.items[i])
  }

  /** Every chunk and artifact the result names is there with its bytes. */
  predicate IsResult(length: Blob -> nat, files: Dir, m: map<string, Json>) {
    && (forall k :: 0 <= k < 2 ==> HasStream(length, files, m, STREAMS[k]))
    && Get(m, "artifacts").Arr?
    && forall i :: 0 <= i < |Get(m, "artifacts").items| ==> HoldsArtifact(length, files, Get(m, "artifacts").items[i])
  }

  lemma ArtifactOn(length: Blob -> nat, files: Dir, files': Dir, entry: Json)
    requires HoldsArtifact(length, files, entry) && forall n :: n in files ==> n in files' && files'[n] == files[n]
    ensures HoldsArtifact(length, files', entry)
  {
    hide IsRelative;
  }

  lemma SelectsFinal(length: Blob -> nat, files: Dir, job: string, m: map<string, Json>)
    requires Selects(length, files, job, m)
    ensures "FINAL" in files
  {
  }

  /** More files change nothing that was checked. */
  lemma Onward(length: Blob -> nat, files: Dir, files': Dir, job: string, m: map<string, Json>)
    requires forall n :: n in files ==> n in files' && files'[n] == files[n]
    ensures Selects(length, files, job, m) ==> Selects(length, files', job, m)
    ensures forall stream {:trigger HasStream(length, files', m, stream)} :: HasStream(length, files, m, stream) ==> HasStream(length, files', m, stream)
  {
    hide IsChunk, Pad, SafeName, IsGeneration;
  }

  // ------------------------------------------------------------ relaying preserves meaning

  /** A result that the relay accepted is the final result at the destination, with the
      same content, exactly when the reader's size limit admits its manifest. */
  lemma RelayedResultIsFinal(length: Blob -> nat, files: Dir, job: string, m: map<string, Json>)
    requires Selects(length, files, job, m) && IsResult(length, files, m)
    ensures var generation := Get(ParseObject(files["FINAL"]).value, "result_file").s;
            IsFinal(length, files, job, m) <==> length(files[generation]) <= RESULT_LIMIT
    ensures forall other :: IsFinal(length, files, job, other) ==> other == m
  {
    hide SafeName, IsGeneration, HoldsChunk, HoldsArtifact, IsChunk;
    assert HasStream(length, files, m, STREAMS[0]);
    assert StreamsOf(m) == Get(m, "streams");
    forall stream | stream in STREAMS ensures IsStream(m, StreamsOf(m).fields, stream) {
      var k :| 0 <= k < 2 && STREAMS[k] == stream;
      assert HasStream(length, files, m, STREAMS[k]);
    }
  }
}

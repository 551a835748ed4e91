/** Publications that the relay accepts and cannot carry over: a request one of whose uploads
    is called by another file's staging name, and a result with one artifact above another. */
module Counterexamples {
  import opened Wrappers
  import opened Wire
  import opened Protocol
  import opened Paths
  import opened Disk
  import opened Forward
  import I = Install
  import D = Delivery
  import R = Relay
  import C = Clash
  import S = Snapshot

  // ------------------------------------------------------------ an upload under a staging name

  /** File i of the list is called by the staging name of file j. */
  ghost predicate Clashes(naming: Naming, id: R.Id, list: seq<S.PubFile>, i: nat, j: nat) {
    && i < |list| && j < |list| && I.Below(PathFor(naming, id, list[j].name))
    && PathFor(naming, id, list[i].name) == I.StageOf(PathFor(naming, id, list[j].name), list[j].body)
  }

  lemma {:induction false} RequestSpreads(naming: Naming, key: R.Key, m: map<string, Json>, list: seq<S.PubFile>)
    requires Faithful(naming) && S.NamesDiffer(list) && forall n :: n in S.DirOf(list) ==> S.IsRequestFile(m, n)
    ensures C.Spread(Placed(naming, key, list))
  {
    hide Split, Leaves, Faithful, S.IsRequestFile, S.DirOf, StageParts, RelOf, R.StageRel;
    var files := Placed(naming, key, list);
    forall i, j {:trigger files[i], files[j]} | 0 <= i < |files| && 0 <= j < |files|
      ensures !(files[i].rel < files[j].rel) && (files[i].rel != [] ==> !(R.StageRel(files[i].rel, files[i].body) < files[j].rel))
    {
      DirOfAt(list, list[i].name);
      RequestIsSpread(naming, m, list, i, j);
      RequestIsSpread(naming, m, list, j, i);
      SameOrder(naming, key, list[i].name, list[j].name);
      SameStageOrder(naming, key, list[i].name, list[i].body, list[j].name);
    }
  }

  lemma ItemAt(naming: Naming, id: R.Id, list: seq<S.PubFile>, k: nat)
    requires k < |list|
    ensures var items := R.Items(id, Placed(naming, id.key, list));
            |items| == |list| && items[k] == D.Item(PathFor(naming, id, list[k].name), list[k].body)
  {
    hide RelOf, R.Abs;
  }

  /** Any accepted request that is sent to an empty destination with an upload called by the
      staging name of a later file: the replay succeeds and is marked done, and no reader
      ever verifies the request there. */
  lemma {:induction false} UploadIsLost(naming: Naming, length: Blob -> nat, id: R.Id, list: seq<S.PubFile>, job: string, m: map<string, Json>, i: nat, j: nat, fs: Fs)
      returns (end: Fs)
    requires Faithful(naming) && id.key.Request? && S.NamesDiffer(list) && forall n :: n in S.DirOf(list) ==> S.IsRequestFile(m, n)
    requires IsRequest(length, S.DirOf(list), job, m) && i < j && Clashes(naming, id, list, i, j) && C.Fresh(fs)
    ensures R.Replayed(fs, id, Placed(naming, id.key, list), R.StepsForAll(id, Placed(naming, id.key, list)), end, R.Published)
    ensures forall seen {:trigger IsRequest(length, ReadDir(naming, end, id), job, seen)} :: !IsRequest(length, ReadDir(naming, end, id), job, seen)
  {
    hide *;
    var files := Placed(naming, id.key, list);
    var items := R.Items(id, files);
    ClashParts(naming, id, list, i, j);
    AllOwn(naming, id, list);
    PlacedIsProper(naming, id.key, list);
    RequestSpreads(naming, id.key, m, list);
    C.SpreadIsApart(id, files);
    C.FreshIsFlat(fs, items);
    ItemAt(naming, id, list, i);
    ItemAt(naming, id, list, j);
    C.LostAtOnce(fs, items, i, j);
    C.AfterIsFlat(fs, items, |items|);
    end := C.After(fs, items, |items|);
    FullReplay(fs, id, files);
    forall seen {:trigger IsRequest(length, ReadDir(naming, end, id), job, seen)} ensures !IsRequest(length, ReadDir(naming, end, id), job, seen) {
      if IsRequest(length, ReadDir(naming, end, id), job, seen) {
        SameManifest(naming, length, id, list, job, m, seen, end);
        MissingUpload(naming, length, id, list, job, m, i, j, end);
      }
    }
  }

  lemma ClashParts(naming: Naming, id: R.Id, list: seq<S.PubFile>, i: nat, j: nat)
    requires Clashes(naming, id, list, i, j)
    ensures i < |list| && j < |list| && I.Below(PathFor(naming, id, list[j].name))
    ensures PathFor(naming, id, list[i].name) == I.StageOf(PathFor(naming, id, list[j].name), list[j].body)
  {
    hide PathFor, I.StageOf;
  }

  lemma FullReplay(fs: Fs, id: R.Id, files: seq<R.File>)
    requires R.Proper(id.key, files) && C.Apart(R.Items(id, files)) && C.Flat(fs, R.Items(id, files)) && D.AllBelow(R.Items(id, files))
    ensures var items := R.Items(id, files);
            R.Replayed(fs, id, files, R.StepsForAll(id, files), C.After(fs, items, |items|), R.Published)
  {
    hide R.Proper, C.Apart, R.Items, D.PassWalk, D.StepsFor, Tree;
    var items := R.Items(id, files);
    C.FlatPasses(fs, items, |items|);
    R.ReplayTrees(fs, id, files) by { C.FlatParts(fs, items); }
    assert items[..|items|] == items;
  }

  /** A manifest read at such a destination is the request's own. */
  lemma {:induction false} SameManifest(naming: Naming, length: Blob -> nat, id: R.Id, list: seq<S.PubFile>, job: string, m: map<string, Json>, seen: map<string, Json>, fs: Fs)
    requires Faithful(naming) && S.NamesDiffer(list) && C.Flat(fs, R.Items(id, Placed(naming, id.key, list)))
    requires IsRequest(length, S.DirOf(list), job, m) && IsRequest(length, ReadDir(naming, fs, id), job, seen)
    ensures seen == m
  {
    hide ReadDir, S.DirOf, Faithful, PathFor, R.Items, D.Reads, BodyAt, AreUploads, CaseDistinct, HoldsUpload, TotalSize, Tree;
    var items := R.Items(id, Placed(naming, id.key, list));
    var p := PathFor(naming, id, "request.json");
    ReadDirAt(naming, fs, id, "request.json");
    BodyIsFile(fs, p);
    assert R.IsFile(fs, p);
    var k: nat :| k < |items| && p == items[k].path && D.Reads(fs, p, items[k].body);
    ItemsAre(naming, id, list);
    ItemAt(naming, id, list, k);
    ReadsBody(fs, p, items[k].body);
    SamePath(naming, id, list[k].name, "request.json");
    DirOfAt(list, "request.json");
  }

  lemma ItemsAre(naming: Naming, id: R.Id, list: seq<S.PubFile>)
    ensures |R.Items(id, Placed(naming, id.key, list))| == |list|
  {
  }

  lemma ReadsBody(fs: Fs, p: Path, body: Blob)
    requires D.Reads(fs, p, body)
    ensures BodyAt(fs, p) == Some(body)
  {
  }

  lemma SamePath(naming: Naming, id: R.Id, a: string, b: string)
    requires Faithful(naming) && PathFor(naming, id, a) == PathFor(naming, id, b)
    ensures a == b
  {
    hide RelOf, Faithful;
    R.AbsFacts(id, RelOf(naming, id.key, a), id, RelOf(naming, id.key, b));
    R.AbsFacts(id, RelOf(naming, id.key, b), id, RelOf(naming, id.key, a));
    SameRel(naming, id.key, a, b);
  }

  /** The lost upload is one that the manifest names. */
  lemma {:induction false} MissingUpload(naming: Naming, length: Blob -> nat, id: R.Id, list: seq<S.PubFile>, job: string, m: map<string, Json>, i: nat, j: nat, fs: Fs)
    requires Faithful(naming) && S.NamesDiffer(list) && (forall n :: n in S.DirOf(list) ==> S.IsRequestFile(m, n))
    requires i < |list| && j < |list| && I.Below(PathFor(naming, id, list[j].name))
    requires PathFor(naming, id, list[i].name) == I.StageOf(PathFor(naming, id, list[j].name), list[j].body)
    requires !R.IsFile(fs, PathFor(naming, id, list[i].name))
    ensures !IsRequest(length, ReadDir(naming, fs, id), job, m)
  {
    hide ReadDir, S.DirOf, Faithful, PathFor, BodyAt, I.StageOf, IsUpload, IsRequest, Split;
    var name := list[i].name;
    DirOfAt(list, name);
    assert S.IsRequestFile(m, name);
    StagingName(naming, id, name, PathFor(naming, id, list[j].name), list[j].body);
    OneComponent(naming, "COMMIT");
    OneComponent(naming, "request.json");
    ReadDirAt(naming, fs, id, name);
    C.NoFileNoBody(fs, PathFor(naming, id, name));
    var entries := Get(m, "uploads").items;
    var e: nat :| e < |entries| && IsUpload(entries[e]) && name == "uploads/" + UploadName(entries[e]);
    assert !HoldsUpload(length, ReadDir(naming, fs, id), entries[e]);
    HoldsAll(length, ReadDir(naming, fs, id), job, m);
  }

  lemma HoldsAll(length: Blob -> nat, dir: Dir, job: string, m: map<string, Json>)
    ensures IsRequest(length, dir, job, m) && Get(m, "uploads").Arr? ==>
              forall e {:trigger Get(m, "uploads").items[e]} :: 0 <= e < |Get(m, "uploads").items| ==>
                IsUpload(Get(m, "uploads").items[e]) && HoldsUpload(length, dir, Get(m, "uploads").items[e])
  {
    hide IsUpload, CaseDistinct, TotalSize, HoldsUpload;
    assert Get(m, "uploads").Arr? ==> UploadsOf(m) == Get(m, "uploads");
  }

  // ------------------------------------------------------------ two uploads

  /** The directory of a request with an upload "b" and, before it, one called by the staging
      name of that. */
  ghost predicate TwoUploads(naming: Naming, length: Blob -> nat, job: string, t: string, x: Blob, y: Blob, dir: Dir) {
    var uploads := [Upload(t, x), Upload("b", y)];
    && naming.leaf(t) == Stage(Plain("b"), Sha(y))
    && "request.json" in dir && dir["request.json"] == RequestBody(length, job, map[], 0, uploads)
    && "COMMIT" in dir && dir["COMMIT"] == Commit(job, dir["request.json"], BodyTotal(length, uploads))
    && Copied(dir - {"request.json", "COMMIT"}, uploads)
    && forall n :: n in dir ==> length(dir[n]) <= 4096
  }

  /** The client publishes it, the relay accepts it, as this list, and the names clash. */
  lemma TwoUploadsAreAccepted(naming: Naming, limits: S.Limits, length: Blob -> nat, job: string, t: string, x: Blob, y: Blob, dir: Dir, id: R.Id)
    requires Faithful(naming) && SafeName(job) && TwoUploads(naming, length, job, t, x, y, dir) && id.key == R.Request(job)
    requires limits.maxFiles >= 4 && limits.maxFileBytes >= 4096 && limits.maxPublicationBytes >= 16384
    ensures Publishable(length, [Upload(t, x), Upload("b", y)])
    ensures S.CompleteRequest(limits, length, dir, job, [])
    ensures var list := S.RequestList(dir);
            && |list| == 4 && list[1] == S.PubFile("uploads/" + t, x) && list[2] == S.PubFile("uploads/b", y)
            && Clashes(naming, id, list, 1, 2)
  {
    hide *;
    TwoParts(naming, length, job, t, x, y, dir);
    var uploads := [Upload(t, x), Upload("b", y)];
    var entries := EntriesOf(length, uploads);
    TwoEntries(length, t, x, y);
    TwoNames(naming, t, y);
    TwoBodies(length, dir, t, x, y);
    FourFiles(limits, length, dir, entries, t);
    PublishedIsComplete(limits, length, dir, job, map[], 0, uploads, []);
    TheList(length, job, dir, entries, t, x, y);
    TheClash(naming, id, S.RequestList(dir), t, x, y);
  }

  lemma TwoParts(naming: Naming, length: Blob -> nat, job: string, t: string, x: Blob, y: Blob, dir: Dir)
    requires TwoUploads(naming, length, job, t, x, y, dir)
    ensures var uploads := [Upload(t, x), Upload("b", y)];
            && naming.leaf(t) == Stage(Plain("b"), Sha(y))
            && "request.json" in dir && dir["request.json"] == RequestBody(length, job, map[], 0, uploads)
            && "COMMIT" in dir && dir["COMMIT"] == Commit(job, dir["request.json"], BodyTotal(length, uploads))
            && Copied(dir - {"request.json", "COMMIT"}, uploads)
    ensures forall n :: n in dir ==> length(dir[n]) <= 4096
  {
    hide RequestBody, Commit, BodyTotal, Copied;
  }

  lemma TwoEntries(length: Blob -> nat, t: string, x: Blob, y: Blob)
    ensures var uploads := [Upload(t, x), Upload("b", y)];
            EntriesOf(length, uploads) == [EntryOf(length, uploads[0]), EntryOf(length, uploads[1])]
  {
  }

  /** Both are proper names, and differ in more than case. */
  lemma TwoNames(naming: Naming, t: string, y: Blob)
    requires Faithful(naming) && naming.leaf(t) == Stage(Plain("b"), Sha(y))
    ensures |t| == 75 && SafeName(t) && SafeName("b") && NoSlash(t)
    ensures forall x, z :: NamesCaseDistinct([Upload(t, x), Upload("b", z)])
  {
    StageTextIsSafe(t);
    SafeHasNoSlash(t);
    assert |Lower(t)| == 75 && |Lower("b")| == 1;
  }

  lemma TwoBodies(length: Blob -> nat, dir: Dir, t: string, x: Blob, y: Blob)
    requires |t| == 75 && SafeName(t) && SafeName("b") && forall n :: n in dir ==> length(dir[n]) <= 4096
    requires Copied(dir - {"request.json", "COMMIT"}, [Upload(t, x), Upload("b", y)])
    ensures ("uploads/" + t) in dir && dir["uploads/" + t] == x && "uploads/b" in dir && dir["uploads/b"] == y
    ensures Publishable(length, [Upload(t, x), Upload("b", y)])
  {
    hide SafeName;
    var uploads := [Upload(t, x), Upload("b", y)];
    var copies := dir - {"request.json", "COMMIT"};
    assert ("uploads/" + uploads[0].name) in copies && ("uploads/" + uploads[1].name) in copies;
    assert "uploads/" + "b" == "uploads/b";
    assert uploads[..1] == [uploads[0]] && uploads[..1][..0] == [];
    assert BodyTotal(length, uploads[..1]) == length(x);
    assert BodyTotal(length, uploads) == length(x) + length(y);
  }

  lemma FourFiles(limits: S.Limits, length: Blob -> nat, dir: Dir, entries: seq<Json>, t: string)
    requires |t| == 75 && SafeName(t) && SafeName("b") && NoSlash(t) && ("uploads/" + t) in dir && "uploads/b" in dir && "COMMIT" in dir && "request.json" in dir
    requires entries == [EntryOf(length, Upload(t, dir["uploads/" + t])), EntryOf(length, Upload("b", dir["uploads/b"]))]
    requires limits.maxFiles >= 4 && limits.maxFileBytes >= 4096 && limits.maxPublicationBytes >= 16384
    requires forall n :: n in dir ==> length(dir[n]) <= 4096
    ensures AreUploads(entries) && S.RequestFiles(entries) == ["COMMIT", "request.json", "uploads/" + t, "uploads/b"]
    ensures WithinLimits(limits, length, dir, entries, [])
  {
    hide SafeName, Split;
    var wanted := ["COMMIT", "request.json", "uploads/" + t, "uploads/b"];
    assert UploadName(entries[0]) == t && UploadName(entries[1]) == "b";
    assert "uploads/" + "b" == "uploads/b";
    assert S.UploadFiles(entries) == ["uploads/" + t, "uploads/b"];
    assert S.RequestFiles(entries) == wanted;
    UploadParts(t);
    UploadParts("b");
    assert "uploads/" + "b" == "uploads/b" && |"uploads/" + t| == 83;
    Constants();
    assert forall i :: 0 <= i < 4 ==> IsRelative(wanted[i]);
    FourSizes(length, wanted, dir);
  }

  lemma Constants()
    ensures Split("COMMIT") == ["COMMIT"] && Split("request.json") == ["request.json"]
    ensures SafeName("COMMIT") && SafeName("request.json") && SafeName("uploads") && SafeName("FINAL")
  {
    hide Split, Stem, IsDevice;
    SplitOne("COMMIT", "");
    SplitOne("request.json", "");
    NotADevice("COMMIT", 5);
    NotADevice("request.json", 5);
    NotADevice("uploads", 5);
    NotADevice("FINAL", 5);
  }

  lemma {:induction false} NotADevice(s: string, n: nat)
    requires n <= |s| && forall i :: 0 <= i < n ==> s[i] != '.'
    ensures |Stem(s)| >= n && (n >= 5 ==> !IsDevice(Stem(s)))
  {
    if n > 0 { NotADevice(s[1..], n - 1); }
  }

  lemma FourSizes(length: Blob -> nat, wanted: seq<string>, dir: Dir)
    requires |wanted| == 4 && forall i :: 0 <= i < 4 ==> wanted[i] in dir
    ensures S.Sizes(length, wanted, dir) == length(dir[wanted[0]]) + length(dir[wanted[1]]) + length(dir[wanted[2]]) + length(dir[wanted[3]])
  {
    assert wanted[..3][..2] == wanted[..2] && wanted[..2][..1] == wanted[..1] && wanted[..1][..0] == [];
    assert S.Sizes(length, wanted[..1], dir) == length(dir[wanted[0]]);
    assert S.Sizes(length, wanted[..2], dir) == S.Sizes(length, wanted[..1], dir) + length(dir[wanted[1]]);
    assert S.Sizes(length, wanted[..3], dir) == S.Sizes(length, wanted[..2], dir) + length(dir[wanted[2]]);
  }

  lemma TheList(length: Blob -> nat, job: string, dir: Dir, entries: seq<Json>, t: string, x: Blob, y: Blob)
    requires "request.json" in dir && dir["request.json"] == RequestBody(length, job, map[], 0, [Upload(t, x), Upload("b", y)])
    requires entries == EntriesOf(length, [Upload(t, x), Upload("b", y)]) && AreUploads(entries) && |t| == 75
    requires S.RequestFiles(entries) == ["COMMIT", "request.json", "uploads/" + t, "uploads/b"]
    requires "COMMIT" in dir && ("uploads/" + t) in dir && dir["uploads/" + t] == x && "uploads/b" in dir && dir["uploads/b"] == y
    ensures S.RequestList(dir) == [S.PubFile("request.json", dir["request.json"]), S.PubFile("uploads/" + t, x), S.PubFile("uploads/b", y), S.PubFile("COMMIT", dir["COMMIT"])]
  {
    hide EntriesOf, AreUploads, S.RequestFiles, S.Others;
    var m := ParseObject(dir["request.json"]).value;
    assert S.ItemsOf(Get(m, "uploads")) == entries;
    var wanted := ["COMMIT", "request.json", "uploads/" + t, "uploads/b"];
    assert |"uploads/" + t| == 83 && |"uploads/b"| == 9 && |"COMMIT"| == 6;
    assert wanted[..4] == wanted && wanted[..0] == [];
    S.NoOthers(dir, "COMMIT");
    S.OthersAppend(wanted, dir, "COMMIT", 0);
    S.OthersAppend(wanted, dir, "COMMIT", 1);
    S.OthersAppend(wanted, dir, "COMMIT", 2);
    S.OthersAppend(wanted, dir, "COMMIT", 3);
  }

  lemma TheClash(naming: Naming, id: R.Id, list: seq<S.PubFile>, t: string, x: Blob, y: Blob)
    requires Faithful(naming) && naming.leaf(t) == Stage(Plain("b"), Sha(y)) && SafeName(t) && SafeName("b")
    requires |list| == 4 && list[1] == S.PubFile("uploads/" + t, x) && list[2] == S.PubFile("uploads/b", y)
    ensures Clashes(naming, id, list, 1, 2)
  {
    hide Split, SafeName;
    UploadParts(t);
    UploadParts("b");
    assert "uploads/" + "b" == "uploads/b";
    IsPlain(naming, "b");
    var p, q := PathFor(naming, id, list[1].name), PathFor(naming, id, list[2].name);
    assert q[|q| - 1] == Plain("b") && p[|p| - 1] == Stage(Plain("b"), Sha(y));
    assert p[..|p| - 1] == q[..|q| - 1];
    assert p == p[..|p| - 1] + [p[|p| - 1]];
  }

  /** So that request is accepted by every check, replayed and marked done, and lost. */
  lemma TwoUploadsAreLost(naming: Naming, limits: S.Limits, length: Blob -> nat, job: string, t: string, x: Blob, y: Blob, dir: Dir, id: R.Id, fs: Fs)
      returns (end: Fs)
    requires Faithful(naming) && SafeName(job) && TwoUploads(naming, length, job, t, x, y, dir) && id.key == R.Request(job) && C.Fresh(fs)
    requires limits.maxFiles >= 4 && limits.maxFileBytes >= 4096 && limits.maxPublicationBytes >= 16384
    ensures S.CompleteRequest(limits, length, dir, job, [])
    ensures var files := Placed(naming, id.key, S.RequestList(dir)); R.Replayed(fs, id, files, R.StepsForAll(id, files), end, R.Published)
    ensures forall seen {:trigger IsRequest(length, ReadDir(naming, end, id), job, seen)} :: !IsRequest(length, ReadDir(naming, end, id), job, seen)
  {
    hide *;
    TwoUploadsAreAccepted(naming, limits, length, job, t, x, y, dir, id);
    TwoParts(naming, length, job, t, x, y, dir);
    TwoNames(naming, t, y);
    var list := S.RequestList(dir);
    TheDirectory(limits, length, job, dir, list, t, x, y);
    end := UploadIsLost(naming, length, id, list, job, ParseObject(dir["request.json"]).value, 1, 2, fs);
  }

  lemma TheDirectory(limits: S.Limits, length: Blob -> nat, job: string, dir: Dir, list: seq<S.PubFile>, t: string, x: Blob, y: Blob)
    requires S.CompleteRequest(limits, length, dir, job, []) && list == S.RequestList(dir) && |t| == 75 && SafeName(t) && SafeName("b")
    requires "request.json" in dir && dir["request.json"] == RequestBody(length, job, map[], 0, [Upload(t, x), Upload("b", y)])
    requires Copied(dir - {"request.json", "COMMIT"}, [Upload(t, x), Upload("b", y)])
    ensures ParseObject(dir["request.json"]).Some? && IsRequest(length, S.DirOf(list), job, ParseObject(dir["request.json"]).value)
    ensures S.NamesDiffer(list) && forall n :: n in S.DirOf(list) ==> S.IsRequestFile(ParseObject(dir["request.json"]).value, n)
  {
    hide *;
    var entries := EntriesOf(length, [Upload(t, x), Upload("b", y)]);
    CompleteIs(limits, length, dir, job);
    TheNames(length, dir, t, x, y);
    TwoEntries(length, t, x, y);
    EntriesAre(length, entries, t, x, y);
    TheList(length, job, dir, entries, t, x, y);
    FourDiffer(list, dir, t, x, y);
    TheRequestFiles(length, job, dir, entries, t, x, y);
  }

  lemma CompleteIs(limits: S.Limits, length: Blob -> nat, dir: Dir, job: string)
    requires S.CompleteRequest(limits, length, dir, job, [])
    ensures "COMMIT" in dir && "request.json" in dir && ParseObject(dir["request.json"]).Some? && IsRequest(length, dir, job, ParseObject(dir["request.json"]).value)
  {
    hide IsRequest, S.Ample, S.Bare;
  }

  lemma TheNames(length: Blob -> nat, dir: Dir, t: string, x: Blob, y: Blob)
    requires Copied(dir - {"request.json", "COMMIT"}, [Upload(t, x), Upload("b", y)]) && "request.json" in dir && "COMMIT" in dir && |t| == 75
    ensures ("uploads/" + t) in dir && dir["uploads/" + t] == x && "uploads/b" in dir && dir["uploads/b"] == y
    ensures forall n :: n in dir <==> n in {"COMMIT", "request.json", "uploads/" + t, "uploads/b"}
  {
    var uploads, copies := [Upload(t, x), Upload("b", y)], dir - {"request.json", "COMMIT"};
    assert "uploads/" + "b" == "uploads/b";
    assert ("uploads/" + uploads[0].name) in copies && ("uploads/" + uploads[1].name) in copies;
    forall n | n in dir ensures n in {"COMMIT", "request.json", "uploads/" + t, "uploads/b"} {
      if n !in {"COMMIT", "request.json"} { assert n in copies && IsCopy(uploads, n); }
    }
  }

  lemma EntriesAre(length: Blob -> nat, entries: seq<Json>, t: string, x: Blob, y: Blob)
    requires SafeName(t) && SafeName("b") && |t| == 75
    requires entries == [EntryOf(length, Upload(t, x)), EntryOf(length, Upload("b", y))]
    ensures AreUploads(entries) && UploadName(entries[0]) == t && UploadName(entries[1]) == "b"
    ensures S.RequestFiles(entries) == ["COMMIT", "request.json", "uploads/" + t, "uploads/b"]
  {
    hide SafeName;
    assert UploadName(entries[0]) == t && UploadName(entries[1]) == "b";
    assert "uploads/" + "b" == "uploads/b";
    assert S.UploadFiles(entries) == ["uploads/" + t, "uploads/b"];
  }

  lemma FourDiffer(list: seq<S.PubFile>, dir: Dir, t: string, x: Blob, y: Blob)
    requires |t| == 75 && "COMMIT" in dir && "request.json" in dir
    requires list == [S.PubFile("request.json", dir["request.json"]), S.PubFile("uploads/" + t, x), S.PubFile("uploads/b", y), S.PubFile("COMMIT", dir["COMMIT"])]
    requires ("uploads/" + t) in dir && dir["uploads/" + t] == x && "uploads/b" in dir && dir["uploads/b"] == y
    requires forall n :: n in dir <==> n in {"COMMIT", "request.json", "uploads/" + t, "uploads/b"}
    ensures S.NamesDiffer(list) && S.DirOf(list) == dir
  {
    assert |"uploads/" + t| == 83 && |"uploads/b"| == 9 && |"COMMIT"| == 6 && |"request.json"| == 12;
    assert list[..3][..2] == list[..2] && list[..2][..1] == list[..1] && list[..1][..0] == [];
    assert S.DirOf(list[..1]) == map["request.json" := dir["request.json"]];
    assert S.DirOf(list[..2]) == S.DirOf(list[..1])["uploads/" + t := x];
    assert S.DirOf(list[..3]) == S.DirOf(list[..2])["uploads/b" := y];
    assert S.DirOf(list) == S.DirOf(list[..3])["COMMIT" := dir["COMMIT"]];
  }

  lemma TheRequestFiles(length: Blob -> nat, job: string, dir: Dir, entries: seq<Json>, t: string, x: Blob, y: Blob)
    requires "request.json" in dir && dir["request.json"] == RequestBody(length, job, map[], 0, [Upload(t, x), Upload("b", y)])
    requires entries == EntriesOf(length, [Upload(t, x), Upload("b", y)]) && |entries| == 2
    requires AreUploads(entries) && UploadName(entries[0]) == t && UploadName(entries[1]) == "b"
    ensures forall n :: n in {"COMMIT", "request.json", "uploads/" + t, "uploads/b"} ==> S.IsRequestFile(ParseObject(dir["request.json"]).value, n)
  {
    hide EntriesOf;
    var m := ParseObject(dir["request.json"]).value;
    assert Get(m, "uploads") == Arr(entries);
    assert "uploads/" + "b" == "uploads/b";
    assert IsUpload(entries[0]) && IsUpload(entries[1]);
    assert S.IsUploadFile(entries, 2, "uploads/" + t) && S.IsUploadFile(entries, 2, "uploads/b");
  }

  // ------------------------------------------------------------ an artifact above another

  const GENERATION := "result-" + ("0000000000000000" + "0000000000000000") + ".json"

  function Artifact(length: Blob -> nat, name: string, body: Blob): Json {
    Obj(map["name" := Str(name), "size" := Int(length(body)), "sha256" := Hex(Sha(body))])
  }

  /** A result with two artifacts, one of them under the name of the other. */
  function NestedManifest(length: Blob -> nat, job: string, x: Blob, y: Blob): map<string, Json> {
    map["protocol" := Int(2), "job_id" := Str(job), "watcher_id" := Str("FINAL"), "fence" := Str("FINAL"),
        "streams" := Obj(map["stdout" := Arr([]), "stderr" := Arr([])]), "stdout_chunks" := Int(0), "stderr_chunks" := Int(0),
        "artifacts" := Arr([Artifact(length, "a", x), Artifact(length, "a/b", y)])]
  }

  function NestedFinal(job: string, result: Blob): Blob {
    Canon(Obj(map["result_file" := Str(GENERATION), "result_sha256" := Hex(Sha(result)), "job_id" := Str(job), "watcher_id" := Str("FINAL"), "fence" := Str("FINAL")]))
  }

  function NestedDir(length: Blob -> nat, job: string, x: Blob, y: Blob): Dir {
    var result := Canon(Obj(NestedManifest(length, job, x, y)));
    map["FINAL" := NestedFinal(job, result), GENERATION := result, "artifacts/a" := x, "artifacts/a/b" := y]
  }

  /** The relay's checks accept it: each look may find a file where, for another look, a
      directory must be. */
  lemma NestedIsAccepted(limits: S.Limits, length: Blob -> nat, job: string, x: Blob, y: Blob)
    requires limits.maxFiles >= 4 && limits.maxFileBytes >= 4096 && limits.maxPublicationBytes >= 16384
    requires forall n :: n in NestedDir(length, job, x, y) ==> length(NestedDir(length, job, x, y)[n]) <= 4096
    ensures S.CompleteResult(limits, length, NestedDir(length, job, x, y), job, [])
    ensures S.ResultFiles(NestedDir(length, job, x, y)) == ["FINAL", GENERATION, "artifacts/a", "artifacts/a/b"]
  {
    hide *;
    var dir := NestedDir(length, job, x, y);
    NestedNames();
    NestedParts(length, job, x, y);
    NestedFiles(length, job, x, y);
    FourSizes(length, S.ResultFiles(dir), dir);
    NestedIsAmple(limits, length, dir);
    NestedHolds(length, job, x, y);
    NestedComplete(limits, length, dir, job);
  }

  lemma NestedNames()
    ensures S.IsGeneration(GENERATION) && SafeName(GENERATION) && SafeName("FINAL") && |GENERATION| == 44
    ensures IsRelative("FINAL") && IsRelative(GENERATION) && IsRelative("a") && IsRelative("a/b") && IsRelative("artifacts/a") && IsRelative("artifacts/a/b")
  {
    hide Split, Stem, IsDevice;
    Constants();
    assert GENERATION[..7] == "result-" && GENERATION[39..] == ".json";
    assert forall i :: 7 <= i < 39 ==> GENERATION[i] == '0';
    GenerationHasNoSlash(GENERATION);
    NotADevice(GENERATION, 5);
    Short("a");
    Short("b");
    NotADevice("artifacts", 5);
    SplitOne("FINAL", "");
    SplitOne(GENERATION, "");
    SplitOne("a", "b");
    SplitOne("b", "");
    SplitOne("artifacts", "a");
    SplitOne("artifacts", "a/b");
    assert "a" + "/" + "b" == "a/b" && "artifacts" + "/" + "a" == "artifacts/a" && "artifacts" + "/" + "a/b" == "artifacts/a/b";
  }

  lemma Short(s: string)
    requires |s| == 1 && SafeChar(s[0]) && s[0] != '.'
    ensures SafeName(s)
  {
    assert Stem(s[1..]) == [];
  }

  lemma NestedParts(length: Blob -> nat, job: string, x: Blob, y: Blob)
    requires |GENERATION| == 44
    ensures var dir, m := NestedDir(length, job, x, y), NestedManifest(length, job, x, y);
            && dir.Keys == {"FINAL", GENERATION, "artifacts/a", "artifacts/a/b"}
            && S.GenerationOf(dir) == GENERATION && S.ResultOf(dir) == m
            && dir[GENERATION] == Canon(Obj(m)) && dir["FINAL"] == NestedFinal(job, dir[GENERATION]) && dir["artifacts/a"] == x && dir["artifacts/a/b"] == y
  {
    assert |"FINAL"| == 5 && |"artifacts/a"| == 11 && |"artifacts/a/b"| == 13;
  }

  lemma NestedFiles(length: Blob -> nat, job: string, x: Blob, y: Blob)
    requires S.GenerationOf(NestedDir(length, job, x, y)) == GENERATION && S.ResultOf(NestedDir(length, job, x, y)) == NestedManifest(length, job, x, y)
    ensures S.ResultFiles(NestedDir(length, job, x, y)) == ["FINAL", GENERATION, "artifacts/a", "artifacts/a/b"]
  {
    hide NestedDir, S.ResultOf, S.GenerationOf;
    var m, dir := NestedManifest(length, job, x, y), NestedDir(length, job, x, y);
    var entries := S.ItemsOf(Get(m, "artifacts"));
    assert entries == [Artifact(length, "a", x), Artifact(length, "a/b", y)];
    assert S.ArtifactName(entries[0]) == "a" && S.ArtifactName(entries[1]) == "a/b";
    assert "artifacts/" + "a" == "artifacts/a" && "artifacts/" + "a/b" == "artifacts/a/b";
    assert S.ArtifactFiles(entries) == ["artifacts/a", "artifacts/a/b"];
    assert S.ChunksOf(m, "stdout") == [] && S.ChunksOf(m, "stderr") == [];
    assert S.ChunkFiles("stdout", []) == [] && S.ChunkFiles("stderr", []) == [];
    assert S.StreamFiles(dir, 2) == ["FINAL", GENERATION];
  }

  lemma NestedIsAmple(limits: S.Limits, length: Blob -> nat, dir: Dir)
    requires dir.Keys == {"FINAL", GENERATION, "artifacts/a", "artifacts/a/b"} && |GENERATION| == 44
    requires S.ResultFiles(dir) == ["FINAL", GENERATION, "artifacts/a", "artifacts/a/b"]
    requires limits.maxFiles >= 4 && limits.maxFileBytes >= 4096 && limits.maxPublicationBytes >= 16384
    requires forall n :: n in dir ==> length(dir[n]) <= 4096
    requires IsRelative("FINAL") && IsRelative(GENERATION) && IsRelative("artifacts/a") && IsRelative("artifacts/a/b")
    requires S.Sizes(length, S.ResultFiles(dir), dir)
             == length(dir["FINAL"]) + length(dir[GENERATION]) + length(dir["artifacts/a"]) + length(dir["artifacts/a/b"])
    ensures S.Ample(limits, length, dir, S.ResultFiles(dir)) && S.Bare(limits, set n | n in S.ResultFiles(dir), {"CLAIMED", "RUNNING"}, true, [])
  {
    hide IsRelative, S.Sizes, S.ResultFiles;
    var wanted := S.ResultFiles(dir);
    assert |wanted[0]| == 5 && |wanted[1]| == 44 && |wanted[2]| == 11 && |wanted[3]| == 13;
  }

  lemma NestedHolds(length: Blob -> nat, job: string, x: Blob, y: Blob)
    requires S.IsGeneration(GENERATION) && SafeName(GENERATION) && SafeName("FINAL") && IsRelative("a") && IsRelative("a/b")
    requires var dir, m := NestedDir(length, job, x, y), NestedManifest(length, job, x, y);
             && dir.Keys == {"FINAL", GENERATION, "artifacts/a", "artifacts/a/b"} && S.ResultOf(dir) == m
             && dir[GENERATION] == Canon(Obj(m)) && dir["FINAL"] == NestedFinal(job, dir[GENERATION]) && dir["artifacts/a"] == x && dir["artifacts/a/b"] == y
             && length(dir["FINAL"]) <= 4096
    ensures var dir := NestedDir(length, job, x, y);
            var m := S.ResultOf(dir);
            && S.Selects(length, dir, job, m) && S.IsResult(length, dir, m)
            && EqualsInt(Get(m, "protocol"), 2) && S.IsSafe(Get(m, "watcher_id")) && S.IsSafe(Get(m, "fence"))
            && Get(m, "streams").Obj? && Get(m, "streams").fields.Keys == {"stdout", "stderr"}
            && S.AllArtifacts(length, dir, S.ItemsOf(Get(m, "artifacts")))
  {
    hide *;
    NestedSelects(length, job, x, y);
    NestedStreams(length, NestedDir(length, job, x, y), job, x, y);
    NestedArtifacts(length, NestedDir(length, job, x, y), job, x, y);
  }

  lemma NestedSelects(length: Blob -> nat, job: string, x: Blob, y: Blob)
    requires S.IsGeneration(GENERATION) && SafeName(GENERATION) && SafeName("FINAL")
    requires var dir, m := NestedDir(length, job, x, y), NestedManifest(length, job, x, y);
             && dir.Keys == {"FINAL", GENERATION, "artifacts/a", "artifacts/a/b"} && S.ResultOf(dir) == m
             && dir[GENERATION] == Canon(Obj(m)) && dir["FINAL"] == NestedFinal(job, dir[GENERATION]) && length(dir["FINAL"]) <= 4096
    ensures var dir, m := NestedDir(length, job, x, y), NestedManifest(length, job, x, y);
            && S.Selects(length, dir, job, m)
            && EqualsInt(Get(m, "protocol"), 2) && S.IsSafe(Get(m, "watcher_id")) && S.IsSafe(Get(m, "fence"))
            && Get(m, "streams").Obj? && Get(m, "streams").fields.Keys == {"stdout", "stderr"}
  {
    hide SafeName, S.IsGeneration, NestedDir, S.ResultOf;
  }

  lemma NestedStreams(length: Blob -> nat, dir: Dir, job: string, x: Blob, y: Blob)
    ensures var m := NestedManifest(length, job, x, y);
            forall k :: 0 <= k < 2 ==> S.HasStream(length, dir, m, STREAMS[k])
  {
    assert STREAMS[0] == "stdout" && STREAMS[1] == "stderr" && "stdout" + "_chunks" == "stdout_chunks" && "stderr" + "_chunks" == "stderr_chunks";
    var m := NestedManifest(length, job, x, y);
    assert S.HasStream(length, dir, m, STREAMS[0]) && S.HasStream(length, dir, m, STREAMS[1]);
  }

  lemma NestedArtifacts(length: Blob -> nat, dir: Dir, job: string, x: Blob, y: Blob)
    requires "artifacts/a" in dir && dir["artifacts/a"] == x && "artifacts/a/b" in dir && dir["artifacts/a/b"] == y
    requires IsRelative("a") && IsRelative("a/b") && forall k :: 0 <= k < 2 ==> S.HasStream(length, dir, NestedManifest(length, job, x, y), STREAMS[k])
    ensures var m := NestedManifest(length, job, x, y);
            && S.IsResult(length, dir, m) && S.AllArtifacts(length, dir, S.ItemsOf(Get(m, "artifacts")))
  {
    hide IsRelative, S.HasStream;
    var m := NestedManifest(length, job, x, y);
    var entries := Get(m, "artifacts").items;
    assert entries == [Artifact(length, "a", x), Artifact(length, "a/b", y)];
    assert S.ArtifactName(entries[0]) == "a" && S.ArtifactName(entries[1]) == "a/b";
    assert "artifacts/" + "a" == "artifacts/a" && "artifacts/" + "a/b" == "artifacts/a/b";
    assert S.HoldsArtifact(length, dir, entries[0]) && S.HoldsArtifact(length, dir, entries[1]);
    assert |Lower("a")| == 1 && |Lower("a/b")| == 3;
  }

  lemma NestedComplete(limits: S.Limits, length: Blob -> nat, dir: Dir, job: string)
    requires var m := S.ResultOf(dir);
            && S.Selects(length, dir, job, m) && S.IsResult(length, dir, m)
            && EqualsInt(Get(m, "protocol"), 2) && S.IsSafe(Get(m, "watcher_id")) && S.IsSafe(Get(m, "fence"))
            && Get(m, "streams").Obj? && Get(m, "streams").fields.Keys == {"stdout", "stderr"}
            && S.AllArtifacts(length, dir, S.ItemsOf(Get(m, "artifacts")))
    requires S.Ample(limits, length, dir, S.ResultFiles(dir)) && S.Bare(limits, set n | n in S.ResultFiles(dir), {"CLAIMED", "RUNNING"}, true, [])
    ensures S.CompleteResult(limits, length, dir, job, [])
  {
    hide S.ResultOf, S.Selects, S.IsResult, S.IsSafe, S.AllArtifacts, S.Ample, S.Bare, S.ResultFiles;
  }

  /** No list with such names is layered: into an empty destination it never arrives. */
  lemma {:induction false} NestedIsNotLayered(naming: Naming, list: seq<S.PubFile>, i: nat, j: nat)
    requires i < |list| && j < |list| && list[i].name == "artifacts/a" && list[j].name == "artifacts/a/b"
    ensures !Layered(naming, list)
  {
    hide Split, StageParts, Leaves;
    SplitOne("a", "b");
    SplitOne("a", "");
    SplitOne("b", "");
    SplitOne("artifacts", "a");
    SplitOne("artifacts", "a/b");
    assert "a" + "/" + "b" == "a/b" && "artifacts" + "/" + "a" == "artifacts/a" && "artifacts" + "/" + "a/b" == "artifacts/a/b";
    assert Split(list[i].name) == ["artifacts", "a"] && Split(list[j].name) == ["artifacts", "a", "b"];
    assert Split(list[i].name) < Split(list[j].name);
    assert |"artifacts/a"| != |"artifacts/a/b"|;
  }
}

/** Relaying preserves meaning: what the relay accepted from one side is what a reader finds
    on the other, read back through the destination's file system. */
module Forward {
  import opened Wrappers
  import opened Wire
  import opened Protocol
  import opened Paths
  import opened Disk
  import I = Install
  import D = Delivery
  import R = Relay
  import S = Snapshot

  // ------------------------------------------------------------ names as texts

  /** Which component a text is, and the text of a component. A staging name is the text
      that the relay derives from another name and a digest. */
  datatype Naming = Naming(leaf: string -> Leaf, text: Leaf -> string)

  predicate IsStageText(s: string) {
    |s| == R.STAGING_LENGTH && s[..7] == ".rally-" && s[71..] == ".tmp" && forall i :: 7 <= i < 71 ==> S.IsHex(s[i])
  }

  ghost predicate Faithful(naming: Naming) {
    forall s {:trigger naming.leaf(s)} ::
      && naming.text(naming.leaf(s)) == s
      && (naming.leaf(s).Plain? ==> naming.leaf(s).name == s)
      && (naming.leaf(s).Stage? ==> IsStageText(s))
  }

  lemma IsPlain(naming: Naming, s: string)
    requires Faithful(naming) && (|s| != R.STAGING_LENGTH || s[71..] != ".tmp")
    ensures naming.leaf(s) == Plain(s) && naming.text(Plain(s)) == s
  {
    assert naming.text(naming.leaf(s)) == s;
  }

  lemma Readies(naming: Naming, job: string)
    requires Faithful(naming)
    ensures naming.leaf(job + ".ready") == Plain(job + ".ready") && naming.text(Plain(job + ".ready")) == job + ".ready"
  {
    var s := job + ".ready";
    if |s| == R.STAGING_LENGTH { assert s[71..][3] == s[74] == 'y' && ".tmp"[3] == 'p'; }
    IsPlain(naming, s);
  }

  function Leaves(naming: Naming, parts: seq<string>): seq<Leaf> {
    seq(|parts|, i requires 0 <= i < |parts| => naming.leaf(parts[i]))
  }

  function Texts(naming: Naming, rel: seq<Leaf>): seq<string> {
    seq(|rel|, i requires 0 <= i < |rel| => naming.text(rel[i]))
  }

  lemma TextsOfLeaves(naming: Naming, parts: seq<string>)
    requires Faithful(naming)
    ensures Texts(naming, Leaves(naming, parts)) == parts
  {
    assert forall i {:trigger parts[i]} :: 0 <= i < |parts| ==> naming.text(naming.leaf(parts[i])) == parts[i];
  }

  // ------------------------------------------------------------ an accepted list as a publication

  function RelOf(naming: Naming, key: R.Key, name: string): seq<Leaf> {
    R.Prefix(key) + Leaves(naming, Split(name))
  }

  /** The files of a snapshot under the publication's own directory. */
  function Placed(naming: Naming, key: R.Key, list: seq<S.PubFile>): seq<R.File> {
    seq(|list|, i requires 0 <= i < |list| => R.File(RelOf(naming, key, list[i].name), list[i].body))
  }

  lemma SameRel(naming: Naming, key: R.Key, a: string, b: string)
    requires Faithful(naming) && RelOf(naming, key, a) == RelOf(naming, key, b)
    ensures a == b
  {
    var n := |R.Prefix(key)|;
    assert Leaves(naming, Split(a)) == RelOf(naming, key, a)[n..] && Leaves(naming, Split(b)) == RelOf(naming, key, b)[n..];
    TextsOfLeaves(naming, Split(a));
    TextsOfLeaves(naming, Split(b));
    SplitInjective(a, b);
  }

  /** The status records in the directory of a result belong to publications of their own. */
  predicate IsRecord(name: string) {
    Split(name) != [] && Split(name)[0] in {"CLAIMED", "RUNNING"}
  }

  predicate IsOwnName(key: R.Key, name: string) {
    key.Request? || (key.Result? && !IsRecord(name))
  }

  lemma OwnName(naming: Naming, key: R.Key, name: string)
    requires Faithful(naming)
    ensures IsOwnName(key, name) ==> R.Owns(key, RelOf(naming, key, name))
  {
    JoinSplit(name);
    var rel := RelOf(naming, key, name);
    assert rel[..|R.Prefix(key)|] == R.Prefix(key) && |rel| > |R.Prefix(key)|;
    assert rel[|R.Prefix(key)|] == naming.leaf(Split(name)[0]);
    assert naming.text(naming.leaf(Split(name)[0])) == Split(name)[0];
  }

  lemma FirstChar(s: string)
    requires s != [] && s[0] != '/'
    ensures Split(s) != [] && Split(s)[0] != [] && Split(s)[0][0] == s[0]
  {
    JoinSplit(s[1..]);
  }

  lemma ResultNameIsOwn(name: string)
    requires S.IsResultName(name)
    ensures !IsRecord(name)
  {
    assert name != [] && name[0] in {'F', 'r', 's', 'a'} by {
      if S.IsGeneration(name) { assert name[..7][0] == 'r'; }
      assert "stdout/" <= name ==> name[0] == "stdout/"[0];
      assert "stderr/" <= name ==> name[0] == "stderr/"[0];
      assert "artifacts/" <= name ==> name[0] == "artifacts/"[0];
    }
    FirstChar(name);
  }

  /** An accepted snapshot is a publication: its files are all the publication's own, and
      each is there once. */
  lemma {:induction false} PlacedIsProper(naming: Naming, key: R.Key, list: seq<S.PubFile>)
    requires Faithful(naming) && S.NamesDiffer(list) && forall i :: 0 <= i < |list| ==> IsOwnName(key, list[i].name)
    ensures R.Proper(key, Placed(naming, key, list))
  {
    hide Split, R.Owns, IsOwnName, Faithful;
    var files := Placed(naming, key, list);
    forall i {:trigger files[i]} | 0 <= i < |files| ensures R.Owns(key, files[i].rel) {
      OwnName(naming, key, list[i].name);
    }
    forall i, j {:trigger files[i], files[j]} | 0 <= i < |files| && 0 <= j < |files| && i != j ensures files[i].rel != files[j].rel {
      if files[i].rel == files[j].rel { SameRel(naming, key, list[i].name, list[j].name); }
    }
  }

  function LimitsOf(limits: R.Limits): S.Limits {
    S.Limits(limits.maxFiles, limits.maxFileBytes, limits.maxPublicationBytes, limits.maxEntries)
  }

  lemma {:induction false} PlacedBytes(naming: Naming, length: Blob -> nat, key: R.Key, list: seq<S.PubFile>)
    ensures R.Bytes(length, Placed(naming, key, list)) == S.ListBytes(length, list)
  {
    if list != [] {
      PlacedBytes(naming, length, key, list[..|list| - 1]);
      assert Placed(naming, key, list)[..|list| - 1] == Placed(naming, key, list[..|list| - 1]);
    }
  }

  /** The directory of a publication's files as a text. */
  function PrefixText(naming: Naming, key: R.Key): string {
    match key
    case Request(job) => "inbox/" + job + ".ready"
    case Result(name) => "results/" + naming.text(name)
    case _ => ""
  }

  /** A request or a result, of a job that is one component. */
  ghost predicate IsJob(naming: Naming, key: R.Key) {
    || (key.Request? && NoSlash(key.job))
    || (key.Result? && naming.leaf(naming.text(key.name)) == key.name && NoSlash(naming.text(key.name)))
  }

  /** The full path of a name below the publication's directory is within the limits. */
  predicate ShortPath(naming: Naming, key: R.Key, name: string) {
    IsRelative(PrefixText(naming, key) + "/" + name)
  }

  lemma PrefixTexts(naming: Naming, key: R.Key)
    requires Faithful(naming) && IsJob(naming, key)
    ensures var parts := Texts(naming, R.Prefix(key));
            && |parts| == 2 && NoSlash(parts[0]) && NoSlash(parts[1]) && PrefixText(naming, key) == parts[0] + "/" + parts[1]
            && Leaves(naming, parts) == R.Prefix(key)
  {
    IsPlain(naming, "inbox");
    IsPlain(naming, "results");
    if key.Request? { Readies(naming, key.job); }
    assert "inbox" + "/" == "inbox/" && "results" + "/" == "results/";
  }

  /** The components of a full path are those of the relative path. */
  lemma PathParts(naming: Naming, key: R.Key, name: string)
    requires Faithful(naming) && IsJob(naming, key)
    ensures var s := PrefixText(naming, key) + "/" + name;
            Leaves(naming, Split(s)) == RelOf(naming, key, name) && Join(Split(s)) == s
  {
    hide Split, Join, R.Prefix, PrefixText, Faithful, IsJob, Texts;
    PrefixTexts(naming, key);
    var parts := Texts(naming, R.Prefix(key));
    var s := PrefixText(naming, key) + "/" + name;
    assert s == parts[0] + "/" + (parts[1] + "/" + name);
    SplitOne(parts[0], parts[1] + "/" + name);
    SplitOne(parts[1], name);
    JoinSplit(s);
    assert Split(s) == parts + Split(name);
    assert Leaves(naming, Split(s)) == Leaves(naming, parts) + Leaves(naming, Split(name));
  }

  lemma StageTextIsSafe(s: string)
    requires IsStageText(s)
    ensures SafeName(s)
  {
    assert s[..7][0] == '.';
    forall i | 0 <= i < |s| ensures SafeChar(s[i]) {
      if i < 7 { assert s[i] == s[..7][i]; }
      if i >= 71 { assert s[i] == s[71..][i - 71]; }
    }
    assert s[74] == s[71..][3];
  }

  /** A component is safe, and as long, as its text. */
  lemma {:induction false} TextFacts(naming: Naming, parts: seq<string>)
    requires Faithful(naming)
    ensures R.TextLength(Leaves(naming, parts)) == |Join(parts)|
    ensures forall i {:trigger parts[i]} :: 0 <= i < |parts| ==>
              (SafeName(parts[i]) <==> (naming.leaf(parts[i]).Plain? ==> SafeName(naming.leaf(parts[i]).name)))
  {
    hide SafeName, Faithful;
    forall i {:trigger parts[i]} | 0 <= i < |parts|
      ensures SafeName(parts[i]) <==> (naming.leaf(parts[i]).Plain? ==> SafeName(naming.leaf(parts[i]).name))
    {
      LeafFacts(naming, parts[i]);
    }
    if |parts| > 1 {
      TextFacts(naming, parts[1..]);
      LeafFacts(naming, parts[0]);
      assert Leaves(naming, parts)[1..] == Leaves(naming, parts[1..]);
    } else if |parts| == 1 {
      LeafFacts(naming, parts[0]);
    }
  }

  lemma LeafFacts(naming: Naming, s: string)
    requires Faithful(naming)
    ensures R.LeafLength(naming.leaf(s)) == |s|
    ensures SafeName(s) <==> (naming.leaf(s).Plain? ==> SafeName(naming.leaf(s).name))
  {
    hide SafeName;
    if naming.leaf(s).Stage? { StageTextIsSafe(s); }
  }

  lemma {:induction false} ShortIsShort(naming: Naming, key: R.Key, name: string)
    requires Faithful(naming) && IsJob(naming, key)
    ensures R.IsShort(RelOf(naming, key, name)) <==> ShortPath(naming, key, name)
  {
    hide SafeName, Faithful, Split, Join, RelOf, R.TextLength;
    var s := PrefixText(naming, key) + "/" + name;
    var parts := Split(s);
    PathParts(naming, key, name);
    TextFacts(naming, parts);
    var rel := RelOf(naming, key, name);
    assert |rel| == |parts| && forall i {:trigger parts[i]} :: 0 <= i < |parts| ==> rel[i] == naming.leaf(parts[i]);
    if R.IsShort(rel) {
      forall i | 0 <= i < |parts| ensures SafeName(parts[i]) {
        assert rel[i] == naming.leaf(parts[i]);
      }
    }
    if ShortPath(naming, key, name) {
      forall i | 0 <= i < |rel| ensures rel[i].Plain? ==> SafeName(rel[i].name) {
        assert rel[i] == naming.leaf(parts[i]);
      }
    }
  }

  /** An accepted snapshot is never refused for its size or count, only for a path that is
      too long or too deep below the publication's directory. */
  lemma {:induction false} PlacedIsAdmitted(naming: Naming, limits: R.Limits, length: Blob -> nat, key: R.Key, list: seq<S.PubFile>)
    requires Faithful(naming) && IsJob(naming, key) && S.Fits(LimitsOf(limits), length, list)
    ensures R.Admits(limits, length, Placed(naming, key, list)) <==> forall i :: 0 <= i < |list| ==> ShortPath(naming, key, list[i].name)
  {
    hide RelOf, Faithful, IsJob, ShortPath, R.IsShort;
    var files := Placed(naming, key, list);
    PlacedBytes(naming, length, key, list);
    forall i | 0 <= i < |list| ensures R.IsShort(files[i].rel) <==> ShortPath(naming, key, list[i].name) {
      ShortIsShort(naming, key, list[i].name);
    }
    assert forall i :: 0 <= i < |files| ==> length(files[i].body) <= limits.maxFileBytes;
    if R.Admits(limits, length, files) {
      forall i | 0 <= i < |list| ensures ShortPath(naming, key, list[i].name) {
        assert R.IsShort(files[i].rel);
      }
    }
  }

  // ------------------------------------------------------------ reading the destination

  function PathFor(naming: Naming, id: R.Id, name: string): Path {
    R.Abs(id, RelOf(naming, id.key, name))
  }

  /** The name of a path below the publication's directory. */
  function NameOf(naming: Naming, id: R.Id, p: Path): string {
    var n := |R.Prefix(id.key)| + 1;
    if |p| <= n then "" else Join(Texts(naming, p[n..]))
  }

  lemma NameOfPath(naming: Naming, id: R.Id, name: string)
    requires Faithful(naming)
    ensures NameOf(naming, id, PathFor(naming, id, name)) == name
  {
    var n, parts := |R.Prefix(id.key)| + 1, Split(name);
    JoinSplit(name);
    var p := PathFor(naming, id, name);
    assert |p| == n + |parts|;
    assert p[n..] == Leaves(naming, parts);
    TextsOfLeaves(naming, parts);
  }

  /** The publication's directory, as its readers find it through the file system. */
  function ReadDir(naming: Naming, fs: Fs, id: R.Id): Dir {
    var names := set p | p in fs.live && p == PathFor(naming, id, NameOf(naming, id, p)) && BodyAt(fs, p).Some? :: NameOf(naming, id, p);
    map n | n in names && BodyAt(fs, PathFor(naming, id, n)).Some? :: BodyAt(fs, PathFor(naming, id, n)).value
  }

  lemma ReadDirAt(naming: Naming, fs: Fs, id: R.Id, name: string)
    requires Faithful(naming)
    ensures name in ReadDir(naming, fs, id) <==> BodyAt(fs, PathFor(naming, id, name)).Some?
    ensures name in ReadDir(naming, fs, id) ==> ReadDir(naming, fs, id)[name] == BodyAt(fs, PathFor(naming, id, name)).value
  {
    hide PathFor, Faithful;
    NameOfPath(naming, id, name);
  }

  lemma {:induction false} DirOfAt(list: seq<S.PubFile>, name: string)
    requires S.NamesDiffer(list)
    ensures name in S.DirOf(list) <==> exists k :: 0 <= k < |list| && list[k].name == name
    ensures forall k :: 0 <= k < |list| ==> list[k].name in S.DirOf(list) && S.DirOf(list)[list[k].name] == list[k].body
  {
    if list != [] {
      var past := list[..|list| - 1];
      DirOfAt(past, name);
      assert forall k :: 0 <= k < |past| ==> past[k] == list[k];
      if name in S.DirOf(past) {
        var k :| 0 <= k < |past| && past[k].name == name;
        assert list[k].name == name;
      }
    }
  }

  /** The publication as it was journaled. */
  ghost predicate Journaled(naming: Naming, history: R.History, id: R.Id, list: seq<S.PubFile>) {
    && Faithful(naming) && R.GoodHistory(history)
    && id in history && history[id] == Placed(naming, id.key, list)
    && S.NamesDiffer(list) && forall i :: 0 <= i < |list| ==> IsOwnName(id.key, list[i].name)
  }

  lemma JournaledParts(naming: Naming, history: R.History, id: R.Id, list: seq<S.PubFile>)
    requires Journaled(naming, history, id, list)
    ensures Faithful(naming) && R.GoodHistory(history) && id in history && |history[id]| == |list| && S.NamesDiffer(list)
  {
  }

  lemma JournaledAt(naming: Naming, history: R.History, id: R.Id, list: seq<S.PubFile>, k: nat)
    requires Journaled(naming, history, id, list) && k < |list|
    ensures R.In(history, id, k) && R.PathOf(history, id, k) == PathFor(naming, id, list[k].name) && R.BodyOf(history, id, k) == list[k].body
  {
    hide Split, RelOf, Faithful, R.GoodHistory;
    assert history[id][k] == R.File(RelOf(naming, id.key, list[k].name), list[k].body);
  }

  /** The last component is not a staging name. */
  predicate PlainName(naming: Naming, name: string) {
    Split(name) != [] && naming.leaf(Split(name)[|Split(name)| - 1]).Plain?
  }

  /** Whatever a reader finds under a name of the publication was journaled under it, or is
      the staging file of something. */
  lemma {:induction false} OnlyListed(naming: Naming, history: R.History, fs: Fs, id: R.Id, list: seq<S.PubFile>, name: string)
    requires Journaled(naming, history, id, list) && R.Clean(history, fs) && IsOwnName(id.key, name) && BodyAt(fs, PathFor(naming, id, name)).Some?
    ensures (exists k: nat :: k < |list| && list[k].name == name) || (!PlainName(naming, name) && StagingHere(history, PathFor(naming, id, name)))
  {
    hide Split, R.Abs, IsOwnName, R.Owns, Leaves, Faithful, R.GoodHistory;
    OwnName(naming, id.key, name);
    var p := PathFor(naming, id, name);
    I.MayNow(fs, p);
    assert May(fs, p, Some(FileAt(Look(fs, p).value.inode)));
    assert R.Possible(fs, R.Abs(id, RelOf(naming, id.key, name)));
    assert R.Accounted(history, p);
    var id', k: nat :| R.In(history, id', k) && (p == R.PathOf(history, id', k) || p == R.StagingOf(history, id', k));
    R.PathFacts(history, id', k);
    if p == R.PathOf(history, id', k) {
      var rel := history[id'][k].rel;
      R.AbsFacts(id, RelOf(naming, id.key, name), id', rel);
      R.AbsFacts(id', rel, id, RelOf(naming, id.key, name));
      R.OwnersSeparate(id.key, RelOf(naming, id.key, name), id'.key, rel);
      SameRel(naming, id.key, list[k].name, name);
    } else {
      StagingName(naming, id, name, R.PathOf(history, id', k), R.BodyOf(history, id', k));
    }
  }

  /** A path that is the staging name of a journaled file. */
  ghost predicate StagingHere(history: R.History, p: Path) {
    exists id, k {:trigger R.In(history, id, k)} :: R.In(history, id, k) && p == R.StagingOf(history, id, k)
  }

  lemma StagingName(naming: Naming, id: R.Id, name: string, path: Path, body: Blob)
    requires I.Below(path) && PathFor(naming, id, name) == I.StageOf(path, body)
    ensures !PlainName(naming, name)
  {
    JoinSplit(name);
    var p := PathFor(naming, id, name);
    assert p[|p| - 1] == naming.leaf(Split(name)[|Split(name)| - 1]);
  }

  /** The destination and the accepted list agree on a name: the same bytes, or neither has it. */
  ghost predicate Agree(naming: Naming, fs: Fs, id: R.Id, list: seq<S.PubFile>, name: string) {
    && (name in ReadDir(naming, fs, id) <==> name in S.DirOf(list))
    && (name in ReadDir(naming, fs, id) ==> ReadDir(naming, fs, id)[name] == S.DirOf(list)[name])
  }

  /** The list's file is at its path. */
  ghost predicate There(naming: Naming, fs: Fs, id: R.Id, list: seq<S.PubFile>, k: nat)
    requires k < |list|
  {
    BodyAt(fs, PathFor(naming, id, list[k].name)) == Some(list[k].body)
  }

  ghost predicate AllThere(naming: Naming, fs: Fs, id: R.Id, list: seq<S.PubFile>) {
    forall k: nat {:trigger There(naming, fs, id, list, k)} :: k < |list| ==> There(naming, fs, id, list, k)
  }

  /** If all files are there, the destination and the list agree on every name that is not a
      staging name, and on every listed one. */
  lemma {:induction false} ThereAgrees(naming: Naming, history: R.History, fs: Fs, id: R.Id, list: seq<S.PubFile>, name: string)
    requires Journaled(naming, history, id, list) && R.Clean(history, fs) && AllThere(naming, fs, id, list) && IsOwnName(id.key, name)
    ensures PlainName(naming, name) || name in S.DirOf(list) || !StagingHere(history, PathFor(naming, id, name)) ==> Agree(naming, fs, id, list, name)
  {
    hide ReadDir, PathFor, BodyAt, S.DirOf, R.Clean, IsOwnName, Placed, Faithful, R.GoodHistory, PlainName, StagingHere;
    ReadDirAt(naming, fs, id, name);
    DirOfAt(list, name);
    forall k: nat | k < |list| ensures BodyAt(fs, PathFor(naming, id, list[k].name)) == Some(list[k].body) {
      assert There(naming, fs, id, list, k);
    }
    if BodyAt(fs, PathFor(naming, id, name)).Some? {
      OnlyListed(naming, history, fs, id, list, name);
    }
  }

  lemma {:induction false} DurableIsThere(naming: Naming, history: R.History, fs: Fs, id: R.Id, list: seq<S.PubFile>)
    requires Journaled(naming, history, id, list) && R.DurableUpTo(history, fs, id, |history[id]|)
    ensures AllThere(naming, fs, id, list)
  {
    hide Durable, PathFor, Placed, R.GoodHistory, Faithful, R.PathOf, R.BodyOf, BodyAt;
    JournaledParts(naming, history, id, list);
    forall k: nat {:trigger There(naming, fs, id, list, k)} | k < |list| ensures There(naming, fs, id, list, k) {
      JournaledAt(naming, history, id, list, k);
      assert R.DurableAt(history, fs, id, k);
      DurableReads(fs, R.PathOf(history, id, k), R.BodyOf(history, id, k));
    }
  }

  /** At any moment, replay under way or not: a reader that finds the last file of a
      publication finds all of it. */
  lemma {:induction false} MarkerAgrees(naming: Naming, history: R.History, fs: Fs, id: R.Id, list: seq<S.PubFile>)
    requires Journaled(naming, history, id, list) && R.DiskOk(history, fs)
    requires list != [] && list[|list| - 1].name in ReadDir(naming, fs, id)
    ensures AllThere(naming, fs, id, list)
  {
    hide ReadDir, PathFor, BodyAt, Placed, Faithful, R.GoodHistory, R.DiskOk, R.PathOf, R.BodyOf;
    var last := |list| - 1;
    JournaledParts(naming, history, id, list);
    ReadDirAt(naming, fs, id, list[last].name);
    JournaledAt(naming, history, id, list, last);
    BodyIsFile(fs, R.PathOf(history, id, last));
    R.MarkerMeansAll(history, fs, fs, id, last);
    forall k: nat {:trigger There(naming, fs, id, list, k)} | k < |list| ensures There(naming, fs, id, list, k) {
      JournaledAt(naming, history, id, list, k);
      assert R.Arrived(history, fs, id, k);
    }
  }

  lemma BodyIsFile(fs: Fs, p: Path)
    ensures BodyAt(fs, p).Some? ==> Look(fs, p).Some? && Look(fs, p).value.FileAt?
  {
  }

  // ------------------------------------------------------------ requests

  /** A relayed request: its marker is the last file. */
  ghost predicate RequestSent(naming: Naming, history: R.History, id: R.Id, list: seq<S.PubFile>) {
    id.key.Request? && Journaled(naming, history, id, list) && list != [] && list[|list| - 1].name == "COMMIT"
  }

  /** At any moment, during the replay and after any power loss: whoever finds the marker
      finds every accepted file with its bytes; all else is staging. */
  lemma {:induction false} RequestArrives(naming: Naming, history: R.History, fs: Fs, id: R.Id, list: seq<S.PubFile>, name: string)
    requires RequestSent(naming, history, id, list) && R.DiskOk(history, fs) && "COMMIT" in ReadDir(naming, fs, id)
    ensures name in S.DirOf(list) ==> name in ReadDir(naming, fs, id) && ReadDir(naming, fs, id)[name] == S.DirOf(list)[name]
    ensures name in ReadDir(naming, fs, id) ==> name in S.DirOf(list) || !PlainName(naming, name)
  {
    hide ReadDir, S.DirOf, PathFor, PlainName, Journaled, AllThere, R.FileOk, Tree;
    MarkerAgrees(naming, history, fs, id, list);
    ThereAgrees(naming, history, fs, id, list, name);
  }

  /** A staging name in a request's directory is that of one of its own files. */
  lemma {:induction false} OwnStaging(naming: Naming, history: R.History, id: R.Id, list: seq<S.PubFile>, name: string)
    requires id.key.Request? && Journaled(naming, history, id, list) && StagingHere(history, PathFor(naming, id, name))
    ensures exists k: nat {:trigger R.StagingOf(history, id, k)} :: k < |list| && R.In(history, id, k) && PathFor(naming, id, name) == R.StagingOf(history, id, k)
  {
    hide Split, R.Abs, Leaves, Faithful, R.StageRel, R.GoodHistory;
    var p := PathFor(naming, id, name);
    var id', k: nat :| R.In(history, id', k) && p == R.StagingOf(history, id', k);
    R.PathFacts(history, id', k);
    OwnName(naming, id.key, name);
    var f := history[id'][k];
    var stage := R.StageRel(f.rel, f.body);
    R.AbsFacts(id, RelOf(naming, id.key, name), id', stage);
    R.AbsFacts(id', stage, id, RelOf(naming, id.key, name));
    StagingOwner(id.key, id'.key, f.rel, f.body);
    assert id' == id;
  }

  lemma StagingOwner(key: R.Key, key': R.Key, rel: seq<Leaf>, body: Blob)
    requires key.Request? && R.Outbound(key') && R.Owns(key', rel) && |rel| >= 2 && R.Owns(key, R.StageRel(rel, body))
    ensures key' == key
  {
    var stage := R.StageRel(rel, body);
    assert |stage| == |rel| > 2 && stage[0] == rel[0] && stage[1] == rel[1];
    if key'.Request? { R.ReadyIsInjective(key.job, key'.job); }
  }

  /** Once a request is whole, its directory reads back as the accepted one, no more and no
      less. */
  lemma {:induction false} WholeReads(naming: Naming, history: R.History, fs: Fs, id: R.Id, list: seq<S.PubFile>)
    requires RequestSent(naming, history, id, list) && R.DiskOk(history, fs) && R.Whole(history, fs, id, |history[id]|)
    ensures ReadDir(naming, fs, id) == S.DirOf(list)
  {
    hide ReadDir, S.DirOf, R.DurableUpTo, R.FileOk, Tree, PlainName, AllThere, Agree, PathFor, StagingHere, BodyAt, R.Possible, R.StagingOf;
    DurableIsThere(naming, history, fs, id, list);
    forall name ensures Agree(naming, fs, id, list, name) {
      var p := PathFor(naming, id, name);
      ThereAgrees(naming, history, fs, id, list, name);
      ReadDirAt(naming, fs, id, name);
      if !Agree(naming, fs, id, list, name) {
        NotAgreed(naming, fs, id, list, name);
        OwnStaging(naming, history, id, list, name);
        var k: nat :| k < |list| && R.In(history, id, k) && p == R.StagingOf(history, id, k);
        assert !R.Possible(fs, R.StagingOf(history, id, k));
        ReadIsPossible(fs, p);
      }
    }
    AllAgree(naming, fs, id, list);
  }

  lemma NotAgreed(naming: Naming, fs: Fs, id: R.Id, list: seq<S.PubFile>, name: string)
    requires !Agree(naming, fs, id, list, name) && name !in S.DirOf(list)
    ensures name in ReadDir(naming, fs, id)
  {
    hide ReadDir, S.DirOf;
  }

  lemma ReadIsPossible(fs: Fs, p: Path)
    ensures BodyAt(fs, p).Some? ==> R.Possible(fs, p)
  {
    if BodyAt(fs, p).Some? { assert May(fs, p, Some(FileAt(Look(fs, p).value.inode))); }
  }

  lemma AllAgree(naming: Naming, fs: Fs, id: R.Id, list: seq<S.PubFile>)
    requires forall name {:trigger Agree(naming, fs, id, list, name)} :: Agree(naming, fs, id, list, name)
    ensures ReadDir(naming, fs, id) == S.DirOf(list)
  {
    hide ReadDir, S.DirOf;
    forall name ensures name in ReadDir(naming, fs, id) <==> name in S.DirOf(list)
      ensures name in ReadDir(naming, fs, id) ==> ReadDir(naming, fs, id)[name] == S.DirOf(list)[name]
    {
      assert Agree(naming, fs, id, list, name);
    }
  }

  /** So no reader ever verifies anything but the accepted request. */
  lemma {:induction false} OnlyTheRequest(naming: Naming, length: Blob -> nat, history: R.History, fs: Fs, id: R.Id, list: seq<S.PubFile>, job: string,
                                          m: map<string, Json>, seen: map<string, Json>)
    requires RequestSent(naming, history, id, list) && R.DiskOk(history, fs) && IsRequest(length, S.DirOf(list), job, m)
    ensures IsRequest(length, ReadDir(naming, fs, id), job, seen) ==> seen == m
  {
    hide ReadDir, S.DirOf, R.DiskOk, AreUploads, CaseDistinct, HoldsUpload, TotalSize, RequestSent, PlainName;
    if IsRequest(length, ReadDir(naming, fs, id), job, seen) {
      RequestArrives(naming, history, fs, id, list, "request.json");
    }
  }

  // ------------------------------------------------------------ results

  /** A relayed result: its pointer is the last file, and selects a generation. */
  ghost predicate ResultSent(naming: Naming, length: Blob -> nat, history: R.History, id: R.Id, list: seq<S.PubFile>, job: string, m: map<string, Json>) {
    && id.key.Result? && Journaled(naming, history, id, list) && list != [] && list[|list| - 1].name == "FINAL"
    && S.Selects(length, S.DirOf(list), job, m)
  }

  /** What a reader selects depends on the pointer and the generation only. */
  lemma SameFinal(length: Blob -> nat, dir: Dir, dir': Dir, job: string, m: map<string, Json>)
    requires "FINAL" in dir <==> "FINAL" in dir'
    requires "FINAL" in dir ==> dir'["FINAL"] == dir["FINAL"]
    requires S.GenerationOf(dir) in dir <==> S.GenerationOf(dir) in dir'
    requires S.GenerationOf(dir) in dir ==> dir'[S.GenerationOf(dir)] == dir[S.GenerationOf(dir)]
    ensures IsFinal(length, dir, job, m) == IsFinal(length, dir', job, m)
  {
    hide SafeName, IsStream;
  }

  lemma FinalNames(naming: Naming, length: Blob -> nat, history: R.History, id: R.Id, list: seq<S.PubFile>, job: string, m: map<string, Json>)
    requires ResultSent(naming, length, history, id, list, job, m)
    ensures var generation := S.GenerationOf(S.DirOf(list));
            && IsOwnName(id.key, "FINAL") && IsOwnName(id.key, generation)
            && PlainName(naming, "FINAL") && PlainName(naming, generation)
  {
    hide S.DirOf, SafeName, IsRecord, Faithful, Split;
    var generation := S.GenerationOf(S.DirOf(list));
    ResultNameIsOwn("FINAL");
    ResultNameIsOwn(generation);
    OneComponent(naming, "FINAL");
    assert NoSlash(generation) by {
      assert S.IsGeneration(generation);
      GenerationHasNoSlash(generation);
    }
    OneComponent(naming, generation);
  }

  lemma GenerationHasNoSlash(s: string)
    requires S.IsGeneration(s)
    ensures NoSlash(s)
  {
    forall i | 0 <= i < |s| ensures s[i] != '/' {
      if i < 7 { assert s[i] == s[..7][i]; }
      if i >= 39 { assert s[i] == s[39..][i - 39]; }
    }
  }

  lemma OneComponent(naming: Naming, s: string)
    requires Faithful(naming) && NoSlash(s) && |s| != R.STAGING_LENGTH
    ensures PlainName(naming, s)
  {
    SplitOne(s, "");
    IsPlain(naming, s);
  }

  /** At any moment, a reader selects nothing but the relayed result; once that is durable,
      every reader selects exactly it, whatever status records lie beside it. */
  lemma {:induction false} OnlyTheResult(naming: Naming, length: Blob -> nat, history: R.History, fs: Fs, id: R.Id, list: seq<S.PubFile>, job: string,
                                         m: map<string, Json>, seen: map<string, Json>)
    requires ResultSent(naming, length, history, id, list, job, m) && R.DiskOk(history, fs)
    ensures IsFinal(length, ReadDir(naming, fs, id), job, seen) ==> IsFinal(length, S.DirOf(list), job, seen)
    ensures R.DurableUpTo(history, fs, id, |history[id]|) ==> (IsFinal(length, ReadDir(naming, fs, id), job, seen) <==> IsFinal(length, S.DirOf(list), job, seen))
  {
    hide ReadDir, S.DirOf, IsFinal, IsOwnName, S.Selects, R.DurableUpTo, R.FileOk, Tree, PlainName, AllThere, Journaled, R.Clean, S.GenerationOf, PathFor;
    var generation := S.GenerationOf(S.DirOf(list));
    FinalNames(naming, length, history, id, list, job, m);
    FinalNeeded(length, ReadDir(naming, fs, id), job, seen);
    JournaledParts(naming, history, id, list);
    if "FINAL" in ReadDir(naming, fs, id) {
      MarkerAgrees(naming, history, fs, id, list);
    } else if R.DurableUpTo(history, fs, id, |history[id]|) {
      DurableIsThere(naming, history, fs, id, list);
    }
    if AllThere(naming, fs, id, list) {
      ThereAgrees(naming, history, fs, id, list, "FINAL");
      ThereAgrees(naming, history, fs, id, list, generation);
      SameFinal(length, S.DirOf(list), ReadDir(naming, fs, id), job, seen);
    }
  }

  lemma FinalNeeded(length: Blob -> nat, dir: Dir, job: string, m: map<string, Json>)
    ensures IsFinal(length, dir, job, m) ==> "FINAL" in dir
  {
  }

  // ------------------------------------------------------------ for ever

  /** A publication marked done stays whole through everything the relay does later and
      through any power loss. */
  lemma {:induction false} DoneStays(naming: Naming, rally: R.Rally, id: R.Id, list: seq<S.PubFile>, fs: Fs)
    requires rally.Valid() && R.ClashFree(rally.history) && id in rally.pubs && rally.pubs[id].done && Journaled(naming, rally.history, id, list)
    requires fs == rally.disk.fs || PowerLoss(rally.disk.fs, fs)
    ensures R.DiskOk(rally.history, fs) && R.Whole(rally.history, fs, id, |rally.history[id]|)
  {
    hide R.DiskOk, R.Whole, PowerLoss, D.Narrows, R.Rally.Valid, R.ClashFree, Journaled, Tree;
    rally.Parts();
    rally.DoneIsWhole(id);
    if fs != rally.disk.fs {
      D.LossIsNarrow(rally.disk.fs, fs);
      R.NarrowsKeepsDisk(rally.history, rally.disk.fs, fs);
      StillWhole(rally.history, rally.disk.fs, fs, id);
    }
  }

  lemma StillWhole(history: R.History, fs: Fs, fs': Fs, id: R.Id)
    requires id in history && R.Whole(history, fs, id, |history[id]|) && D.Narrows(fs, fs')
    ensures R.Whole(history, fs', id, |history[id]|)
  {
    hide R.DurableUpTo, R.Gone, D.Narrows;
    R.WholeNarrows(history, fs, fs', id, |history[id]|);
  }

  /** A publication with one file above another is never done, whatever the relay does and
      however often it tries. */
  lemma NestedIsNeverDone(rally: R.Rally, id: R.Id, i: nat, j: nat)
    requires rally.Valid() && R.ClashFree(rally.history) && R.In(rally.history, id, i) && R.In(rally.history, id, j)
    requires rally.history[id][i].rel < rally.history[id][j].rel
    ensures !R.IsDone(rally.pubs, id)
  {
    hide R.Rally.Valid, R.ClashFree, R.DurableUpTo, Tree, R.Fine, R.Gone;
    rally.Parts();
    if R.IsDone(rally.pubs, id) {
      rally.DoneIsWhole(id);
      R.NestedIsNeverWhole(rally.history, rally.disk.fs, id, i, j);
    }
  }

  // ------------------------------------------------------------ which lists arrive

  /** The journal has room, no path is too long, and no name clashes. */
  ghost predicate HasRoom(naming: Naming, rally: R.Rally, id: R.Id, list: seq<S.PubFile>)
    reads rally
  {
    && (forall i :: 0 <= i < |list| ==> ShortPath(naming, id.key, list[i].name))
    && id !in rally.pubs && |rally.pubs| < rally.limits.maxPublications
    && R.Pending(rally.length, rally.table) + S.ListBytes(rally.length, list) <= rally.limits.maxPendingBytes
    && R.ClashFree(rally.history[id := Placed(naming, id.key, list)])
  }

  /** Nothing at the destination and nothing in the list itself keeps a file from its path. */
  ghost predicate Clear(naming: Naming, fs: Fs, id: R.Id, list: seq<S.PubFile>) {
    var files := Placed(naming, id.key, list);
    forall k: nat {:trigger R.Obstructed(fs, id, files, k)} :: k < |files| && files[k].rel != [] ==> !R.Obstructed(fs, id, files, k)
  }

  /** No name lies above another, and no earlier one below a later file's staging name. */
  ghost predicate Layered(naming: Naming, list: seq<S.PubFile>) {
    forall i, j {:trigger list[i], list[j]} :: 0 <= j < i < |list| ==>
      && !(Split(list[j].name) < Split(list[i].name)) && !(Split(list[i].name) < Split(list[j].name))
      && !(StageParts(naming, list[i].name, list[i].body) < Leaves(naming, Split(list[j].name)))
  }

  /** The components of a file's staging name. */
  function StageParts(naming: Naming, name: string, body: Blob): seq<Leaf> {
    JoinSplit(name);
    R.StageRel(Leaves(naming, Split(name)), body)
  }

  lemma SameOrder(naming: Naming, key: R.Key, a: string, b: string)
    requires Faithful(naming)
    ensures RelOf(naming, key, a) < RelOf(naming, key, b) <==> Split(a) < Split(b)
  {
    hide Split;
    var n := |R.Prefix(key)|;
    var p, q, x, y := RelOf(naming, key, a), RelOf(naming, key, b), Split(a), Split(b);
    assert p[..n] == q[..n] == R.Prefix(key) && p[n..] == Leaves(naming, x) && q[n..] == Leaves(naming, y);
    if p < q {
      forall i | 0 <= i < |x| ensures i < |y| && x[i] == y[i] {
        assert p[n + i] == q[n + i] == naming.leaf(x[i]) == naming.leaf(y[i]);
        assert naming.text(naming.leaf(x[i])) == x[i] && naming.text(naming.leaf(y[i])) == y[i];
      }
    }
    if x < y {
      forall i | 0 <= i < |p| ensures i < |q| && p[i] == q[i] {
        if i >= n { assert p[i] == naming.leaf(x[i - n]) && q[i] == naming.leaf(y[i - n]); }
      }
    }
  }

  lemma SameStageOrder(naming: Naming, key: R.Key, a: string, body: Blob, b: string)
    ensures Split(a) != [] && RelOf(naming, key, a) != []
    ensures R.StageRel(RelOf(naming, key, a), body) < RelOf(naming, key, b) <==> StageParts(naming, a, body) < Leaves(naming, Split(b))
  {
    hide Split;
    JoinSplit(a);
    var n := |R.Prefix(key)|;
    var p, q, x, y := R.StageRel(RelOf(naming, key, a), body), RelOf(naming, key, b), StageParts(naming, a, body), Leaves(naming, Split(b));
    assert p == R.Prefix(key) + x;
    if p < q {
      forall i | 0 <= i < |x| ensures i < |y| && x[i] == y[i] {
        assert p[n + i] == q[n + i];
      }
    }
    if x < y { assert q == p + y[|x|..]; }
  }

  /** Whether the files of a list can be delivered one after the other is a matter of their
      names. */
  lemma FitsByName(naming: Naming, key: R.Key, list: seq<S.PubFile>)
    requires Faithful(naming)
    ensures R.Fits(Placed(naming, key, list), |list|) <==> Layered(naming, list)
  {
    hide Split, Faithful, RelOf, Leaves, R.StageRel, StageParts;
    var files := Placed(naming, key, list);
    forall i, j {:trigger list[i], list[j]} | 0 <= j < i < |list|
      ensures files[i].rel != []
      ensures files[j].rel < files[i].rel <==> Split(list[j].name) < Split(list[i].name)
      ensures files[i].rel < files[j].rel <==> Split(list[i].name) < Split(list[j].name)
      ensures R.StageRel(files[i].rel, list[i].body) < files[j].rel <==> StageParts(naming, list[i].name, list[i].body) < Leaves(naming, Split(list[j].name))
    {
      SameOrder(naming, key, list[i].name, list[j].name);
      SameOrder(naming, key, list[j].name, list[i].name);
      SameStageOrder(naming, key, list[i].name, list[i].body, list[j].name);
    }
    if Layered(naming, list) {
      forall i: nat {:trigger R.Nested(files, i)} | i < |list| && files[i].rel != [] ensures !R.Nested(files, i) {
        forall j {:trigger files[j]} | 0 <= j < i
          ensures !(files[j].rel < files[i].rel || files[i].rel < files[j].rel || R.StageRel(files[i].rel, files[i].body) < files[j].rel)
        {
          assert list[i] == list[i] && list[j] == list[j];
        }
      }
    }
    if R.Fits(files, |list|) {
      forall i, j {:trigger list[i], list[j]} | 0 <= j < i < |list|
        ensures !(files[j].rel < files[i].rel || files[i].rel < files[j].rel || R.StageRel(files[i].rel, files[i].body) < files[j].rel)
      {
        assert files[j] == files[j] && !R.Nested(files, i);
      }
    }
  }

  /** In an empty destination only the list itself can be in the way. */
  lemma EmptyIsClear(naming: Naming, fs: Fs, id: R.Id, list: seq<S.PubFile>)
    requires fs.live == map[]
    ensures Clear(naming, fs, id, list) <==> R.Fits(Placed(naming, id.key, list), |list|)
  {
    hide Split, R.Abs, RelOf, R.Nested;
    var files := Placed(naming, id.key, list);
    assert forall p: Path :: Look(fs, p).None?;
    forall k: nat | k < |files| && files[k].rel != [] ensures R.Obstructed(fs, id, files, k) == R.Nested(files, k) {
      R.StageOfAbs(id, files[k].rel, files[k].body);
    }
  }

  lemma HinderedIsNotClear(naming: Naming, history: R.History, fs: Fs, id: R.Id, list: seq<S.PubFile>)
    requires id in history && history[id] == Placed(naming, id.key, list) && R.Hindered(history, fs, id, |history[id]|)
    ensures !Clear(naming, fs, id, list)
  {
    hide R.Obstructed, R.Nested, Placed;
    var files := Placed(naming, id.key, list);
    var j: nat :| j < |history[id]| && history[id][j].rel != [] && R.Obstructed(fs, id, history[id], j);
  }

  /** Journals and replays an accepted list. In an empty destination, with room and enough
      steps, it arrives exactly if its names are layered. */
  method Send(naming: Naming, rally: R.Rally, id: R.Id, list: seq<S.PubFile>, budget: nat) returns (verdict: R.Verdict)
    requires rally.Valid() && Faithful(naming) && IsJob(naming, id.key) && S.Fits(LimitsOf(rally.limits), rally.length, list)
    requires S.NamesDiffer(list) && forall i :: 0 <= i < |list| ==> IsOwnName(id.key, list[i].name)
    modifies rally`pubs, rally`table, rally`history, rally.disk
    ensures rally.Valid()
    ensures verdict.TooLarge? <==> exists i :: 0 <= i < |list| && !ShortPath(naming, id.key, list[i].name)
    ensures verdict.Published? ==> id in rally.pubs && rally.pubs[id].done && Journaled(naming, rally.history, id, list)
    ensures verdict in {R.Published, R.Deferred, R.Stopped} ==> rally.history == old(rally.history)[id := Placed(naming, id.key, list)]
    ensures old(HasRoom(naming, rally, id, list)) ==> verdict in {R.Published, R.Deferred, R.Stopped} && R.ClashFree(rally.history)
    ensures old(HasRoom(naming, rally, id, list)) && budget >= R.StepsForAll(id, Placed(naming, id.key, list)) ==>
              && (old(Clear(naming, rally.disk.fs, id, list)) ==> verdict.Published?)
              && (old(rally.disk.fs.live) == map[] ==> (verdict.Published? <==> Layered(naming, list)))
  {
    hide *;
    PlacedIsProper(naming, id.key, list);
    PlacedIsAdmitted(naming, rally.limits, rally.length, id.key, list);
    PlacedBytes(naming, rally.length, id.key, list);
    ghost var start, files := rally.disk.fs, Placed(naming, id.key, list);
    ghost var room := HasRoom(naming, rally, id, list);
    if room {
      RoomParts(naming, rally, id, list);
      if start.live == map[] { EmptyIsClear(naming, start, id, list); }
      FitsByName(naming, id.key, list);
    }
    PlacedLength(naming, id.key, list);
    rally.Parts();
    verdict := rally.Publish(id, Placed(naming, id.key, list), budget);
    rally.Parts();
    if verdict.Published? { ItIsJournaled(naming, rally.history, id, list); }
    if room && verdict.Deferred? { HinderedIsNotClear(naming, rally.history, start, id, list); }
  }

  lemma PlacedLength(naming: Naming, key: R.Key, list: seq<S.PubFile>)
    ensures |Placed(naming, key, list)| == |list|
  {
  }

  lemma RoomParts(naming: Naming, rally: R.Rally, id: R.Id, list: seq<S.PubFile>)
    requires HasRoom(naming, rally, id, list)
    ensures forall i :: 0 <= i < |list| ==> ShortPath(naming, id.key, list[i].name)
    ensures id !in rally.pubs && |rally.pubs| < rally.limits.maxPublications
    ensures R.Pending(rally.length, rally.table) + S.ListBytes(rally.length, list) <= rally.limits.maxPendingBytes
    ensures R.ClashFree(rally.history[id := Placed(naming, id.key, list)])
  {
    hide ShortPath, Placed;
  }

  lemma ItIsJournaled(naming: Naming, history: R.History, id: R.Id, list: seq<S.PubFile>)
    requires Faithful(naming) && R.GoodHistory(history) && id in history && history[id] == Placed(naming, id.key, list)
    requires S.NamesDiffer(list) && forall i :: 0 <= i < |list| ==> IsOwnName(id.key, list[i].name)
    ensures Journaled(naming, history, id, list)
  {
    hide Faithful, R.GoodHistory, Placed, IsOwnName;
  }

  // ------------------------------------------------------------ snapshot, replay, read back

  /** A request goes from one side to the other: what the relay accepted is journaled,
      replayed, and then verified by a reader on the destination itself. As long as no
      journaled name clashes, the reader gets the same manifest, exactly when its own limits
      admit it, now and after a power loss; and even while the replay is incomplete it never
      gets anything else. */
  method ForwardRequest(naming: Naming, snap: S.Snapshot, rally: R.Rally, target: string, job: string, listing: seq<S.Met>, budget: nat, policy: Policy)
      returns (sent: Option<seq<S.PubFile>>, verdict: R.Verdict, seen: Option<map<string, Json>>)
    requires snap.Valid() && snap.files == map[] && rally.Valid() && Faithful(naming) && NoSlash(job)
    requires snap.limits == LimitsOf(rally.limits) && snap.length == rally.length
    modifies snap, rally`pubs, rally`table, rally`history, rally.disk
    ensures rally.Valid()
    ensures sent.None? ==> rally.pubs == old(rally.pubs) && rally.disk.fs == old(rally.disk.fs)
    ensures forall dir {:trigger S.Stable(snap.look, dir)} ::
              S.Stable(snap.look, dir) && S.CompleteRequest(snap.limits, snap.length, dir, job, listing) ==>
                sent.Some? && "request.json" in dir && "request.json" in S.DirOf(sent.value) && S.DirOf(sent.value)["request.json"] == dir["request.json"]
    ensures sent.Some? ==>
              && "request.json" in S.DirOf(sent.value) && ParseObject(S.DirOf(sent.value)["request.json"]).Some?
              && var id, m := R.Id(target, R.Request(job)), ParseObject(S.DirOf(sent.value)["request.json"]).value;
                 && IsRequest(snap.length, S.DirOf(sent.value), job, m)
                 && (verdict.TooLarge? <==> exists i :: 0 <= i < |sent.value| && !ShortPath(naming, id.key, sent.value[i].name))
                 && (old(HasRoom(naming, rally, id, sent.value)) && budget >= R.StepsForAll(id, Placed(naming, id.key, sent.value)) ==>
                       (old(rally.disk.fs.live) == map[] || old(Clear(naming, rally.disk.fs, id, sent.value)) ==> verdict.Published?))
                 && (old(HasRoom(naming, rally, id, sent.value)) ==> R.ClashFree(rally.history))
                 && (R.ClashFree(rally.history) ==>
                       && (verdict.Published? ==> forall fs :: fs == rally.disk.fs || PowerLoss(rally.disk.fs, fs) ==> ReadDir(naming, fs, id) == S.DirOf(sent.value))
                       && (verdict.Published? ==> (seen == Some(m) <==> Protocol.Admits(policy, snap.length, S.DirOf(sent.value), m)))
                       && (seen.Some? && Journaled(naming, rally.history, id, sent.value) ==> seen == Some(m)))
  {
    hide *;
    var id := R.Id(target, R.Request(job));
    sent, verdict, seen := None, R.Deferred, None;
    sent := snap.RequestSnapshot(job, listing);
    StableParts(snap.limits, snap.length, snap.look, job, listing);
    if sent.None? { return; }
    var list := sent.value;
    ghost var m := ParseObject(S.DirOf(list)["request.json"]).value;
    AllOwn(naming, id, list);
    RequestIsLayered(naming, m, list);
    verdict := Send(naming, rally, id, list, budget);
    rally.Parts();
    var dir := ReadDir(naming, rally.disk.fs, id);
    seen := VerifyRequest(policy, snap.length, dir, job);
    OneManifest(snap.length, S.DirOf(list), job);
    if R.ClashFree(rally.history) {
      DiskOfFine(rally.pubs, rally.history, rally.disk.fs);
      if Journaled(naming, rally.history, id, list) {
        IsSent(naming, rally.history, id, list);
        forall other ensures IsRequest(snap.length, dir, job, other) ==> other == m {
          OnlyTheRequest(naming, snap.length, rally.history, rally.disk.fs, id, list, job, m, other);
        }
      }
      if verdict.Published? {
        forall fs | fs == rally.disk.fs || PowerLoss(rally.disk.fs, fs) ensures ReadDir(naming, fs, id) == S.DirOf(list) {
          DoneStays(naming, rally, id, list, fs);
          WholeReads(naming, rally.history, fs, id, list);
        }
        assert dir == S.DirOf(list);
      }
    }
  }

  lemma StableParts(limits: S.Limits, length: Blob -> nat, look: (nat, string) -> Option<Blob>, job: string, listing: seq<S.Met>)
    ensures forall dir {:trigger S.Stable(look, dir)} :: S.Stable(look, dir) && S.CompleteRequest(limits, length, dir, job, listing) ==>
              "request.json" in dir && forall t :: look(t, "request.json") == Some(dir["request.json"])
  {
    hide IsRequest, S.Ample, S.Bare;
  }

  lemma DiskOfFine(pubs: map<R.Id, R.Pub>, history: R.History, fs: Fs)
    requires R.Fine(pubs, history, fs)
    ensures R.DiskOk(history, fs)
  {
  }

  lemma {:induction false} AllOwn(naming: Naming, id: R.Id, list: seq<S.PubFile>)
    requires id.key.Request?
    ensures forall i :: 0 <= i < |list| ==> IsOwnName(id.key, list[i].name)
    ensures NoSlash(id.key.job) ==> IsJob(naming, id.key)
  {
  }

  lemma SafeHasNoSlash(s: string)
    requires SafeName(s)
    ensures NoSlash(s)
  {
  }

  /** The components of a request's file names. */
  lemma RequestParts(m: map<string, Json>, name: string)
    requires S.IsRequestFile(m, name)
    ensures Split(name) == [name] || (|Split(name)| == 2 && Split(name)[0] == "uploads")
    ensures Split(name) == [name] ==> name in {"COMMIT", "request.json"}
  {
    hide SafeName, Split;
    if name in {"COMMIT", "request.json"} {
      SplitOne("COMMIT", "");
      SplitOne("request.json", "");
    } else {
      var entries := Get(m, "uploads").items;
      var i: nat :| i < |entries| && IsUpload(entries[i]) && name == "uploads/" + UploadName(entries[i]);
      UploadParts(UploadName(entries[i]));
    }
  }

  lemma UploadParts(name: string)
    requires SafeName(name)
    ensures Split("uploads/" + name) == ["uploads", name]
  {
    hide Split, SafeName;
    SafeHasNoSlash(name);
    SplitOne("uploads", name);
    SplitOne(name, "");
    assert "uploads/" + name == "uploads" + "/" + name;
  }

  /** No request has a name above another, or above one when staged. */
  lemma {:induction false} RequestIsSpread(naming: Naming, m: map<string, Json>, list: seq<S.PubFile>, i: nat, j: nat)
    requires Faithful(naming) && i < |list| && j < |list| && S.IsRequestFile(m, list[i].name) && S.IsRequestFile(m, list[j].name)
    ensures !(Split(list[j].name) < Split(list[i].name))
    ensures !(StageParts(naming, list[i].name, list[i].body) < Leaves(naming, Split(list[j].name)))
  {
    hide Split, S.IsRequestFile;
    RequestParts(m, list[i].name);
    RequestParts(m, list[j].name);
    IsPlain(naming, "uploads");
    var stage, leaves := StageParts(naming, list[i].name, list[i].body), Leaves(naming, Split(list[j].name));
    assert |stage| == 1 ==> stage[0].Stage?;
    assert |leaves| == 2 ==> leaves[0] == Plain("uploads");
  }

  lemma {:induction false} RequestIsLayered(naming: Naming, m: map<string, Json>, list: seq<S.PubFile>)
    requires Faithful(naming) && S.NamesDiffer(list) && forall n :: n in S.DirOf(list) ==> S.IsRequestFile(m, n)
    ensures Layered(naming, list)
  {
    hide Split, Leaves, Faithful, S.IsRequestFile, S.DirOf, StageParts;
    forall i, j {:trigger list[i], list[j]} | 0 <= j < i < |list|
      ensures !(Split(list[j].name) < Split(list[i].name)) && !(Split(list[i].name) < Split(list[j].name))
      ensures !(StageParts(naming, list[i].name, list[i].body) < Leaves(naming, Split(list[j].name)))
    {
      DirOfAt(list, list[i].name);
      assert list[i].name in S.DirOf(list) && list[j].name in S.DirOf(list);
      RequestIsSpread(naming, m, list, i, j);
      RequestIsSpread(naming, m, list, j, i);
    }
  }

  lemma IsSent(naming: Naming, history: R.History, id: R.Id, list: seq<S.PubFile>)
    requires id.key.Request? && Journaled(naming, history, id, list) && list != [] && list[|list| - 1].name == "COMMIT"
    ensures RequestSent(naming, history, id, list)
  {
  }

  lemma OneManifest(length: Blob -> nat, dir: Dir, job: string)
    ensures forall m {:trigger IsRequest(length, dir, job, m)} :: IsRequest(length, dir, job, m) ==> "request.json" in dir && ParseObject(dir["request.json"]) == Some(m)
  {
  }

  /** The same for a result, selected by its pointer at the destination: the reader gets the
      relayed result exactly when its size limit admits it, now and after a power loss, and
      never another one. */
  method ForwardResult(naming: Naming, snap: S.Snapshot, rally: R.Rally, target: string, job: string, listing: seq<S.Met>, budget: nat)
      returns (sent: Option<seq<S.PubFile>>, verdict: R.Verdict, seen: Option<map<string, Json>>, ghost m: map<string, Json>)
    requires snap.Valid() && snap.files == map[] && rally.Valid() && Faithful(naming) && NoSlash(job)
    requires snap.limits == LimitsOf(rally.limits) && snap.length == rally.length
    modifies snap, rally`pubs, rally`table, rally`history, rally.disk
    ensures rally.Valid()
    ensures sent.None? ==> rally.pubs == old(rally.pubs) && rally.disk.fs == old(rally.disk.fs)
    ensures forall dir {:trigger S.Stable(snap.look, dir)} :: S.Stable(snap.look, dir) && S.CompleteResult(snap.limits, snap.length, dir, job, listing) ==> sent.Some?
    ensures sent.Some? ==>
              var id, dir := R.Id(target, R.Result(naming.leaf(job))), S.DirOf(sent.value);
              && S.Selects(snap.length, dir, job, m) && S.IsResult(snap.length, dir, m) && S.GenerationOf(dir) in dir
              && (verdict.TooLarge? <==> exists i :: 0 <= i < |sent.value| && !ShortPath(naming, id.key, sent.value[i].name))
              && (old(HasRoom(naming, rally, id, sent.value)) && budget >= R.StepsForAll(id, Placed(naming, id.key, sent.value)) ==>
                    && (old(Clear(naming, rally.disk.fs, id, sent.value)) ==> verdict.Published?)
                    && (old(rally.disk.fs.live) == map[] ==> (verdict.Published? <==> Layered(naming, sent.value))))
              && (old(HasRoom(naming, rally, id, sent.value)) ==> R.ClashFree(rally.history))
              && (R.ClashFree(rally.history) ==>
                    && (verdict.Published? ==> forall fs :: fs == rally.disk.fs || PowerLoss(rally.disk.fs, fs) ==>
                          Selected(snap.length, ReadDir(naming, fs, id), job, if snap.length(dir[S.GenerationOf(dir)]) <= RESULT_LIMIT then Some(m) else None))
                    && (verdict.Published? ==> seen == if snap.length(dir[S.GenerationOf(dir)]) <= RESULT_LIMIT then Some(m) else None)
                    && (seen.Some? && Journaled(naming, rally.history, id, sent.value) ==> seen == Some(m)))
  {
    hide *;
    var id := R.Id(target, R.Result(naming.leaf(job)));
    sent, verdict, seen, m := None, R.Deferred, None, map[];
    sent, m := snap.ResultSnapshot(job, listing);
    if sent.None? { return; }
    var list := sent.value;
    ResultsOwn(naming, id, list);
    JobOf(naming, job);
    verdict := Send(naming, rally, id, list, budget);
    rally.Parts();
    var dir := ReadDir(naming, rally.disk.fs, id);
    seen := ReadFinal(snap.length, dir, job);
    Relayed(snap.length, S.DirOf(list), job, m);
    ghost var best := if snap.length(S.DirOf(list)[S.GenerationOf(S.DirOf(list))]) <= RESULT_LIMIT then Some(m) else None;
    if R.ClashFree(rally.history) {
      DiskOfFine(rally.pubs, rally.history, rally.disk.fs);
      if Journaled(naming, rally.history, id, list) {
        ResultIsSent(naming, snap.length, rally.history, id, list, job, m);
        forall other ensures IsFinal(snap.length, dir, job, other) ==> other == m {
          OnlyTheResult(naming, snap.length, rally.history, rally.disk.fs, id, list, job, m, other);
        }
      }
      if verdict.Published? {
        forall fs | fs == rally.disk.fs || PowerLoss(rally.disk.fs, fs) ensures Selected(snap.length, ReadDir(naming, fs, id), job, best) {
          DoneStays(naming, rally, id, list, fs);
          WholeIsDurable(rally.history, fs, id);
          forall other ensures IsFinal(snap.length, ReadDir(naming, fs, id), job, other) <==> IsFinal(snap.length, S.DirOf(list), job, other) {
            OnlyTheResult(naming, snap.length, rally.history, fs, id, list, job, m, other);
          }
          ItIsSelected(snap.length, ReadDir(naming, fs, id), job, best);
        }
        ItIsSelected(snap.length, dir, job, best);
      }
    }
  }

  lemma WholeIsDurable(history: R.History, fs: Fs, id: R.Id)
    requires id in history && R.Whole(history, fs, id, |history[id]|)
    ensures R.DurableUpTo(history, fs, id, |history[id]|)
  {
  }

  lemma JobOf(naming: Naming, job: string)
    requires Faithful(naming) && NoSlash(job)
    ensures IsJob(naming, R.Result(naming.leaf(job)))
  {
  }

  /** A reader of final results finds exactly this one, or none. */
  ghost predicate Selected(length: Blob -> nat, dir: Dir, job: string, result: Option<map<string, Json>>) {
    forall m {:trigger IsFinal(length, dir, job, m)} :: IsFinal(length, dir, job, m) <==> result == Some(m)
  }

  lemma ItIsSelected(length: Blob -> nat, dir: Dir, job: string, result: Option<map<string, Json>>)
    ensures Selected(length, dir, job, result) <==> forall m {:trigger IsFinal(length, dir, job, m)} :: IsFinal(length, dir, job, m) <==> result == Some(m)
  {
  }

  lemma {:induction false} ResultsOwn(naming: Naming, id: R.Id, list: seq<S.PubFile>)
    requires id.key.Result? && S.NamesDiffer(list) && forall n :: n in S.DirOf(list) ==> S.IsResultName(n)
    ensures forall i :: 0 <= i < |list| ==> IsOwnName(id.key, list[i].name)
  {
    hide S.IsResultName, S.DirOf, IsRecord;
    forall i | 0 <= i < |list| ensures IsOwnName(id.key, list[i].name) {
      DirOfAt(list, list[i].name);
      ResultNameIsOwn(list[i].name);
    }
  }

  lemma ResultIsSent(naming: Naming, length: Blob -> nat, history: R.History, id: R.Id, list: seq<S.PubFile>, job: string, m: map<string, Json>)
    requires id.key.Result? && Journaled(naming, history, id, list) && list != [] && list[|list| - 1].name == "FINAL" && S.Selects(length, S.DirOf(list), job, m)
    ensures ResultSent(naming, length, history, id, list, job, m)
  {
  }

  /** The accepted directory selects the accepted result, within the reader's size limit. */
  lemma Relayed(length: Blob -> nat, dir: Dir, job: string, m: map<string, Json>)
    requires S.Selects(length, dir, job, m) && S.IsResult(length, dir, m)
    ensures S.GenerationOf(dir) in dir
    ensures forall other {:trigger IsFinal(length, dir, job, other)} ::
              IsFinal(length, dir, job, other) <==> other == m && length(dir[S.GenerationOf(dir)]) <= RESULT_LIMIT
  {
    hide IsFinal, S.IsResult, S.IsGeneration, SafeName;
    S.RelayedResultIsFinal(length, dir, job, m);
  }

  // ------------------------------------------------------------ from client to reader

  /** The published request is within the relay's limits, in a directory with nothing else. */
  ghost predicate WithinLimits(limits: S.Limits, length: Blob -> nat, dir: Dir, entries: seq<Json>, listing: seq<S.Met>) {
    && "COMMIT" in dir && length(dir["COMMIT"]) <= 4096 && "request.json" in dir && length(dir["request.json"]) <= 1024 * 1024
    && AreUploads(entries)
    && S.Ample(limits, length, dir, S.RequestFiles(entries)) && S.Bare(limits, set n | n in S.RequestFiles(entries), {}, false, listing)
  }

  lemma PublishedIsComplete(limits: S.Limits, length: Blob -> nat, dir: Dir, job: string, extra: map<string, Json>, now: int, uploads: seq<Upload>, listing: seq<S.Met>)
    requires SafeName(job) && Publishable(length, uploads) && NamesCaseDistinct(uploads)
    requires "request.json" in dir && dir["request.json"] == RequestBody(length, job, extra, now, uploads)
    requires "COMMIT" in dir && dir["COMMIT"] == Commit(job, dir["request.json"], BodyTotal(length, uploads))
    requires Copied(dir - {"request.json", "COMMIT"}, uploads)
    requires WithinLimits(limits, length, dir, EntriesOf(length, uploads), listing)
    ensures S.CompleteRequest(limits, length, dir, job, listing)
    ensures ParseObject(dir["request.json"]) == Some(Manifest(extra, job, now, EntriesOf(length, uploads)))
  {
    hide Publishable, NamesCaseDistinct, Copied, IsRequest, SafeName, S.Ample, S.Bare, EntriesOf, AreUploads, S.RequestFiles;
    PublishedVerifies(length, job, extra, now, uploads, dir);
  }

  function ViewOf(dir: Dir): (nat, string) -> Option<Blob> {
    (t: nat, n: string) => if n in dir then Some(dir[n]) else None
  }

  lemma ViewIsStable(dir: Dir)
    ensures S.Stable(ViewOf(dir), dir)
  {
  }

  /** A request from its client to a reader behind the relay: published, taken over, replayed
      and read back. With case-distinct names, within the limits and with room, into an empty
      destination, the reader gets the client's own manifest, exactly when its limits admit
      it, now and after a power loss. */
  method RelayRequest(naming: Naming, rally: R.Rally, target: string, job: string, taken: bool, extra: map<string, Json>, now: int, uploads: seq<Upload>,
                      listing: seq<S.Met>, budget: nat, policy: Policy)
      returns (dir: Option<Dir>, sent: Option<seq<S.PubFile>>, verdict: R.Verdict, seen: Option<map<string, Json>>)
    requires rally.Valid() && Faithful(naming)
    modifies rally`pubs, rally`table, rally`history, rally.disk
    ensures rally.Valid()
    ensures dir.Some? <==> SafeName(job) && !taken && Publishable(rally.length, uploads)
    ensures dir.Some? && NamesCaseDistinct(uploads) && WithinLimits(LimitsOf(rally.limits), rally.length, dir.value, EntriesOf(rally.length, uploads), listing) ==>
              && sent.Some?
              && var id, m := R.Id(target, R.Request(job)), Manifest(extra, job, now, EntriesOf(rally.length, uploads));
                 && (old(HasRoom(naming, rally, id, sent.value)) && budget >= R.StepsForAll(id, Placed(naming, id.key, sent.value)) ==>
                       (old(rally.disk.fs.live) == map[] || old(Clear(naming, rally.disk.fs, id, sent.value)) ==> verdict.Published?))
                 && (old(HasRoom(naming, rally, id, sent.value)) && verdict.Published? ==>
                       && (seen == Some(m) <==> Protocol.Admits(policy, rally.length, S.DirOf(sent.value), m))
                       && forall fs :: fs == rally.disk.fs || PowerLoss(rally.disk.fs, fs) ==>
                            ReadDir(naming, fs, id) == S.DirOf(sent.value) && IsRequest(rally.length, ReadDir(naming, fs, id), job, m))
  {
    hide *;
    sent, verdict, seen := None, R.Deferred, None;
    dir := PublishRequest(rally.length, job, taken, extra, now, uploads);
    if dir.None? { return; }
    var snap := new S.Snapshot(LimitsOf(rally.limits), rally.length, ViewOf(dir.value));
    ViewIsStable(dir.value);
    SafeHasNoSlash(job);
    ghost var id := R.Id(target, R.Request(job));
    ghost var expected := NamesCaseDistinct(uploads) && WithinLimits(LimitsOf(rally.limits), rally.length, dir.value, EntriesOf(rally.length, uploads), listing);
    if expected { PublishedIsComplete(LimitsOf(rally.limits), rally.length, dir.value, job, extra, now, uploads, listing); }
    sent, verdict, seen := ForwardRequest(naming, snap, rally, target, job, listing, budget, policy);
  }
}

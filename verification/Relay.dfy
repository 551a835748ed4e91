/** The store-and-forward relay: a journal of validated publications, and their replay to
    the destination, the marker last. */
module Relay {
  import opened Wrappers
  import opened Wire
  import Protocol
  import opened Disk
  import opened Install
  import opened Delivery

  // ------------------------------------------------------------ identities and paths

  /** The publications of one target. Requests, cancellations and pings go out; results,
      status records and pongs come in. A job or probe that is a path component by itself
      may be any name. */
  datatype Key =
    | Request(job: string)
    | Result(name: Leaf)
    | Status(name: Leaf, running: bool)
    | Cancel(name: Leaf)
    | Ping(probe: string)
    | Pong(name: Leaf)

  datatype Id = Id(target: string, key: Key)

  predicate Outbound(key: Key) {
    key.Request? || key.Cancel? || key.Ping?
  }

  function RootName(id: Id): string {
    (if Outbound(id.key) then "o/" else "s/") + id.target
  }

  function StatusName(running: bool): string {
    if running then "RUNNING" else "CLAIMED"
  }

  /** The directory of a publication, or the path of a single record. */
  function Prefix(key: Key): seq<Leaf> {
    match key
    case Request(job) => [Plain("inbox"), Plain(job + ".ready")]
    case Result(name) => [Plain("results"), name]
    case Status(name, running) => [Plain("results"), name, Plain(StatusName(running))]
    case Cancel(name) => [Plain("control"), Plain("cancel"), name]
    case Ping(probe) => [Plain("health"), Plain("pings"), Plain(probe + ".ready"), Plain("PING")]
    case Pong(name) => [Plain("health"), Plain("pongs"), name]
  }

  /** The relative paths that a publication may install. A result's own directory also
      holds the two independent status records. */
  predicate Owns(key: Key, rel: seq<Leaf>) {
    match key
    case Request(_) => Prefix(key) < rel
    case Result(_) => Prefix(key) < rel && rel[2] !in {Plain("CLAIMED"), Plain("RUNNING")}
    case _ => rel == Prefix(key)
  }

  lemma ReadyIsInjective(a: string, b: string)
    requires a + ".ready" == b + ".ready"
    ensures a == b
  {
    assert a == (a + ".ready")[..|a + ".ready"| - 6];
    assert b == (b + ".ready")[..|b + ".ready"| - 6];
  }

  /** Different publications own different paths, and none is above another's. */
  lemma OwnersSeparate(a: Key, rel: seq<Leaf>, b: Key, rel': seq<Leaf>)
    requires Owns(a, rel) && Owns(b, rel') && rel <= rel' && (Outbound(a) <==> Outbound(b))
    ensures a == b
  {
    assert |rel| >= 2 && rel[0] == rel'[0] && rel[1] == rel'[1];
    if a.Request? || a.Ping? {
      assert |rel| > 2 ==> rel[2] == rel'[2];
      if a.Request? && b.Request? { ReadyIsInjective(a.job, b.job); }
      if a.Ping? && b.Ping? { ReadyIsInjective(a.probe, b.probe); }
    } else {
      assert |rel| > 2 && rel[2] == rel'[2];
    }
  }

  function Abs(id: Id, rel: seq<Leaf>): Path {
    [Plain(RootName(id))] + rel
  }

  lemma AbsFacts(id: Id, rel: seq<Leaf>, id': Id, rel': seq<Leaf>)
    ensures |Abs(id, rel)| == |rel| + 1 && (Below(Abs(id, rel)) <==> rel != [])
    ensures Abs(id, rel) <= Abs(id', rel') ==> id.target == id'.target && (Outbound(id.key) <==> Outbound(id'.key)) && rel <= rel'
  {
    var p, p' := Abs(id, rel), Abs(id', rel');
    if p <= p' {
      assert p[0] == p'[0];
      assert RootName(id) == RootName(id');
      assert RootName(id)[0] == RootName(id')[0];
      assert RootName(id)[2..] == id.target && RootName(id')[2..] == id'.target;
      forall i | 0 <= i < |rel| ensures i < |rel'| && rel[i] == rel'[i] {
        assert p[i + 1] == p'[i + 1];
      }
    }
  }

  /** The staging name of a relative path and its bytes. */
  function StageRel(rel: seq<Leaf>, body: Blob): seq<Leaf>
    requires rel != []
  {
    rel[..|rel| - 1] + [Stage(rel[|rel| - 1], Sha(body))]
  }

  lemma StageOfAbs(id: Id, rel: seq<Leaf>, body: Blob)
    requires rel != []
    ensures Below(Abs(id, rel)) && StageOf(Abs(id, rel), body) == Abs(id, StageRel(rel, body))
  {
    var p := Abs(id, rel);
    assert p[..|p| - 1] == [Plain(RootName(id))] + rel[..|rel| - 1];
  }

  // ------------------------------------------------------------ publications

  datatype File = File(rel: seq<Leaf>, body: Blob)

  datatype Limits = Limits(maxFiles: nat, maxFileBytes: nat, maxPublicationBytes: nat, maxPublications: nat, maxPendingBytes: nat, maxEntries: nat)

  /** A name in JSON; a staging name is a text with a digest in it. */
  function LeafJson(leaf: Leaf): Json {
    match leaf
    case Plain(name) => Str(name)
    case Stage(of, digest) => Hex(Sha(Canon(Arr([LeafJson(of), Hex(digest)]))))
  }

  lemma {:induction false} LeafJsonInjective(a: Leaf, b: Leaf)
    requires LeafJson(a) == LeafJson(b)
    ensures a == b
    decreases a
  {
    if a.Stage? {
      var x, y := [LeafJson(a.of), Hex(a.digest)], [LeafJson(b.of), Hex(b.digest)];
      assert x == y && x[0] == y[0] && x[1] == y[1];
      LeafJsonInjective(a.of, b.of);
    }
  }

  function PathJson(rel: seq<Leaf>): Json {
    Arr(seq(|rel|, i requires 0 <= i < |rel| => LeafJson(rel[i])))
  }

  function FileJson(f: File): Json {
    Arr([PathJson(f.rel), Hex(Sha(f.body))])
  }

  function Digested(files: seq<File>): Digest {
    Sha(Canon(Arr(seq(|files|, i requires 0 <= i < |files| => FileJson(files[i])))))
  }

  /** The digest determines the paths and the bytes, in order. */
  lemma DigestDetermines(files: seq<File>, files': seq<File>)
    requires Digested(files) == Digested(files')
    ensures files == files'
  {
    hide FileJson;
    var a := seq(|files|, i requires 0 <= i < |files| => FileJson(files[i]));
    var b := seq(|files'|, i requires 0 <= i < |files'| => FileJson(files'[i]));
    assert a == b;
    assert |a| == |b|;
    forall i | 0 <= i < |files| ensures files[i] == files'[i] {
      assert a[i] == b[i];
      assert FileJson(files[i]) == FileJson(files'[i]);
      FileJsonInjective(files[i], files'[i]);
    }
  }

  lemma FileJsonInjective(f: File, g: File)
    requires FileJson(f) == FileJson(g)
    ensures f == g
  {
    hide LeafJson;
    var a, b := PathJson(f.rel).items, PathJson(g.rel).items;
    assert FileJson(f).items[0] == PathJson(f.rel) && FileJson(g).items[0] == PathJson(g.rel);
    assert FileJson(f).items[1] == Hex(Sha(f.body)) && FileJson(g).items[1] == Hex(Sha(g.body));
    assert a == b && |a| == |f.rel| && |b| == |g.rel|;
    forall i | 0 <= i < |f.rel| ensures f.rel[i] == g.rel[i] {
      assert a[i] == LeafJson(f.rel[i]) && b[i] == LeafJson(g.rel[i]);
      LeafJsonInjective(f.rel[i], g.rel[i]);
    }
  }

  function Bytes(length: Blob -> nat, files: seq<File>): nat {
    if files == [] then 0 else Bytes(length, files[..|files| - 1]) + length(files[|files| - 1].body)
  }

  const STAGING_LENGTH := 75 // ".rally-", 64 hexadecimal digits, ".tmp"

  function LeafLength(leaf: Leaf): nat {
    if leaf.Plain? then |leaf.name| else STAGING_LENGTH
  }

  /** The length of a relative path as a text. */
  function TextLength(rel: seq<Leaf>): nat {
    if rel == [] then 0
    else if |rel| == 1 then LeafLength(rel[0])
    else LeafLength(rel[0]) + 1 + TextLength(rel[1..])
  }

  /** The checks on a relative path; a staging name consists of safe characters. */
  predicate IsShort(rel: seq<Leaf>) {
    TextLength(rel) <= 1024 && |rel| <= 16 && forall i :: 0 <= i < |rel| ==> rel[i].Plain? ==> Protocol.SafeName(rel[i].name)
  }

  /** The size, count and path limits of one publication. */
  predicate Admits(limits: Limits, length: Blob -> nat, files: seq<File>) {
    && 0 < |files| <= limits.maxFiles
    && Bytes(length, files) <= limits.maxPublicationBytes
    && (forall i :: 0 <= i < |files| ==> length(files[i].body) <= limits.maxFileBytes)
    && (forall i :: 0 <= i < |files| ==> IsShort(files[i].rel))
  }

  /** Each file once, all owned by the publication. */
  ghost predicate Proper(key: Key, files: seq<File>) {
    && (forall i {:trigger files[i]} :: 0 <= i < |files| ==> Owns(key, files[i].rel))
    && (forall i, j {:trigger files[i], files[j]} :: 0 <= i < |files| && 0 <= j < |files| && i != j ==> files[i].rel != files[j].rel)
  }

  // ------------------------------------------------------------ the destination

  /** Every publication ever journaled, with its files in order, the marker last. */
  type History = map<Id, seq<File>>

  ghost predicate GoodHistory(history: History) {
    forall id {:trigger id in history} :: id in history ==> Proper(id.key, history[id])
  }

  predicate In(history: History, id: Id, k: nat) {
    id in history && k < |history[id]|
  }

  function PathOf(history: History, id: Id, k: nat): Path
    requires In(history, id, k)
  {
    Abs(id, history[id][k].rel)
  }

  function BodyOf(history: History, id: Id, k: nat): Blob
    requires In(history, id, k)
  {
    history[id][k].body
  }

  /** The staging name under which file k is installed. */
  function StagingOf(history: History, id: Id, k: nat): Path
    requires In(history, id, k)
  {
    var p := PathOf(history, id, k);
    if Below(p) then StageOf(p, BodyOf(history, id, k)) else p
  }

  /** No journaled file has a path that is the staging name of a journaled file. Nothing in
      the relay's checks keeps a publication from breaking this. */
  ghost predicate ClashFree(history: History) {
    forall id, k, id', k' {:trigger In(history, id, k), In(history, id', k')} ::
      In(history, id, k) && In(history, id', k') ==> PathOf(history, id, k) != StagingOf(history, id', k')
  }

  /** A file is at the path, or may be after a power loss. */
  ghost predicate Possible(fs: Fs, p: Path) {
    exists i :: May(fs, p, Some(FileAt(i)))
  }

  ghost predicate DurableAt(history: History, fs: Fs, id: Id, j: nat)
    requires In(history, id, j)
  {
    Durable(fs, PathOf(history, id, j), BodyOf(history, id, j))
  }

  /** The first k files of the publication are durable. */
  ghost predicate DurableUpTo(history: History, fs: Fs, id: Id, k: nat)
    requires id in history && k <= |history[id]|
  {
    forall j: nat {:trigger DurableAt(history, fs, id, j)} :: j < k ==> DurableAt(history, fs, id, j)
  }

  /** File k of a publication: whatever file may be found there has its complete bytes, its
      staging name leads to nothing else, and if any file may be there, every earlier file
      of the publication is durable. */
  ghost predicate FileOk(history: History, fs: Fs, id: Id, k: nat)
    requires In(history, id, k)
  {
    var p := PathOf(history, id, k);
    && Below(p)
    && Own(fs, p, BodyOf(history, id, k)) && Stageable(fs, p, BodyOf(history, id, k))
    && (Possible(fs, p) ==> DurableUpTo(history, fs, id, k))
  }

  /** A path that the publication owns, or a staging name beside one. */
  predicate Ours(key: Key, rel: seq<Leaf>) {
    || Owns(key, rel)
    || (rel != [] && rel[|rel| - 1].Stage? && Owns(key, rel[..|rel| - 1] + [rel[|rel| - 1].of]))
  }

  /** The path of a journaled file, or its staging name. */
  ghost predicate Accounted(history: History, p: Path) {
    exists id, k {:trigger In(history, id, k)} :: In(history, id, k) && (p == PathOf(history, id, k) || p == StagingOf(history, id, k))
  }

  /** No file is under the paths of publications but what journaled files account for. */
  ghost predicate Clean(history: History, fs: Fs) {
    forall id: Id, rel: seq<Leaf> {:trigger Abs(id, rel)} :: Ours(id.key, rel) && Possible(fs, Abs(id, rel)) ==> Accounted(history, Abs(id, rel))
  }

  ghost predicate DiskOk(history: History, fs: Fs) {
    && Tree(fs)
    && (forall id, k {:trigger In(history, id, k)} :: In(history, id, k) ==> FileOk(history, fs, id, k))
    && Clean(history, fs)
  }

  lemma OwnedPath(id: Id, rel: seq<Leaf>)
    requires Owns(id.key, rel)
    ensures |rel| >= 2 && Below(Abs(id, rel))
  {
  }

  /** A journaled file's path and staging name. */
  lemma PathFacts(history: History, id: Id, k: nat)
    requires GoodHistory(history) && In(history, id, k)
    ensures Below(PathOf(history, id, k)) && StagingOf(history, id, k) == StageOf(PathOf(history, id, k), BodyOf(history, id, k))
    ensures |history[id][k].rel| >= 2 && Owns(id.key, history[id][k].rel)
    ensures StagingOf(history, id, k) == Abs(id, StageRel(history[id][k].rel, history[id][k].body))
    ensures StagingOf(history, id, k) != PathOf(history, id, k)
  {
    assert Proper(id.key, history[id]);
    var f := history[id][k];
    OwnedPath(id, f.rel);
    StageOfAbs(id, f.rel, f.body);
    StageFacts(PathOf(history, id, k), f.body);
  }

  /** The files of all publications are at different paths, with different staging names. */
  lemma PathsSeparate(history: History, id: Id, k: nat, id': Id, k': nat)
    requires GoodHistory(history) && In(history, id, k) && In(history, id', k')
    ensures PathOf(history, id, k) == PathOf(history, id', k') ==> id == id' && k == k'
    ensures StagingOf(history, id, k) == StagingOf(history, id', k') ==> id == id' && k == k'
  {
    hide Owns;
    PathFacts(history, id, k);
    PathFacts(history, id', k');
    if StagingOf(history, id, k) == StagingOf(history, id', k') {
      StageInjective(PathOf(history, id, k), BodyOf(history, id, k), PathOf(history, id', k'), BodyOf(history, id', k'));
    }
    if PathOf(history, id, k) == PathOf(history, id', k') {
      assert Proper(id.key, history[id]) && Proper(id'.key, history[id']);
      AbsFacts(id, history[id][k].rel, id', history[id'][k'].rel);
      AbsFacts(id', history[id'][k'].rel, id, history[id][k].rel);
      OwnersSeparate(id.key, history[id][k].rel, id'.key, history[id'][k'].rel);
    }
  }

  /** An install elsewhere brings no file to a path. */
  lemma ElsewhereSame(fs: Fs, fs': Fs, path: Path, body: Blob, q: Path)
    requires Below(path) && Progress(fs, fs', path, body) && q != path && q != StageOf(path, body)
    ensures forall i {:trigger May(fs', q, Some(FileAt(i)))} :: May(fs', q, Some(FileAt(i))) ==> May(fs, q, Some(FileAt(i)))
    ensures Possible(fs', q) ==> Possible(fs, q)
  {
    hide May, Look, Stageable, Tree, Guarded, Staged;
  }

  /** A durable file stays durable while any path is installed whose staging name it does
      not have. */
  lemma InstallKeepsDurable(fs: Fs, fs': Fs, path: Path, body: Blob, q: Path, b: Blob)
    requires Below(path) && Below(q) && Progress(fs, fs', path, body) && Durable(fs, q, b) && q != StageOf(path, body)
    ensures Durable(fs', q, b)
  {
    hide May, Look, Stageable, Tree;
    forall n {:trigger q[..n]} | 2 <= n <= |q|
      ensures Look(fs', q[..n]) == Look(fs, q[..n]) && Settled(fs', q[..n])
    {
      StepOnChain(fs, fs', path, body, q, b, n);
    }
    assert q[..|q|] == q;
  }

  lemma StepOnChain(fs: Fs, fs': Fs, path: Path, body: Blob, q: Path, b: Blob, n: nat)
    requires Below(path) && Below(q) && Progress(fs, fs', path, body) && Durable(fs, q, b) && q != StageOf(path, body)
    requires 2 <= n <= |q|
    ensures Look(fs', q[..n]) == Look(fs, q[..n]) && Settled(fs', q[..n])
  {
    hide May, Look, Stageable, Tree;
    var p := q[..n];
    assert q[..|q|] == q;
    assert Settled(fs, p) && Look(fs, p).Some?;
    if p == StageOf(path, body) {
      assert n < |q|;
      assert Look(fs, p) == Some(Directory);
    }
  }

  /** Installing file k, all earlier ones being durable, keeps everything. */
  lemma InstallKeepsDisk(history: History, fs: Fs, fs': Fs, id: Id, k: nat)
    requires GoodHistory(history) && ClashFree(history) && DiskOk(history, fs) && In(history, id, k)
    requires Below(PathOf(history, id, k)) && Progress(fs, fs', PathOf(history, id, k), BodyOf(history, id, k))
    requires DurableUpTo(history, fs, id, k)
    ensures DiskOk(history, fs')
  {
    hide Tree, May, Look, Own, Stageable, FileOk, Clean, Below, DurableUpTo, Abs, PathOf, BodyOf, ClashFree;
    var path, body := PathOf(history, id, k), BodyOf(history, id, k);
    ProgressParts(fs, fs', path, body);
    hide Progress;
    forall id', k' {:trigger In(history, id', k')} | In(history, id', k') ensures FileOk(history, fs', id', k') {
      FileKept(history, fs, fs', id, k, id', k');
    }
    CleanKept(history, fs, fs', id, k);
  }

  lemma FileKept(history: History, fs: Fs, fs': Fs, id: Id, k: nat, id': Id, k': nat)
    requires GoodHistory(history) && ClashFree(history) && DiskOk(history, fs) && In(history, id, k) && In(history, id', k')
    requires Below(PathOf(history, id, k)) && Progress(fs, fs', PathOf(history, id, k), BodyOf(history, id, k))
    requires DurableUpTo(history, fs, id, k)
    ensures FileOk(history, fs', id', k')
  {
    hide Tree, May, Look, Own, Stageable, Clean, Below, Durable, Abs, GoodHistory;
    var path, body := PathOf(history, id, k), BodyOf(history, id, k);
    var q, b := PathOf(history, id', k'), BodyOf(history, id', k');
    assert FileOk(history, fs, id, k) && FileOk(history, fs, id', k');
    PathFacts(history, id, k);
    PathFacts(history, id', k');
    assert In(history, id, k) && In(history, id', k');
    if id == id' && k == k' {
      ProgressParts(fs, fs', path, body);
      ProgressKeepsOwn(fs, fs', path, body);
    } else {
      PathsSeparate(history, id', k', id, k);
      hide Progress;
      ElsewhereSame(fs, fs', path, body, q);
      OwnElsewhere(fs, fs', path, body, q, b);
      StageableElsewhere(fs, fs', path, body, q, b);
    }
    if Possible(fs', q) {
      forall j: nat {:trigger DurableAt(history, fs', id', j)} | j < k' ensures DurableAt(history, fs', id', j) {
        assert DurableAt(history, fs, id', j);
        assert In(history, id', j) && In(history, id, k);
        PathFacts(history, id', j);
        InstallKeepsDurable(fs, fs', path, body, PathOf(history, id', j), BodyOf(history, id', j));
      }
    }
  }

  lemma OwnElsewhere(fs: Fs, fs': Fs, path: Path, body: Blob, q: Path, b: Blob)
    requires Below(path) && Below(q) && Tree(fs) && Progress(fs, fs', path, body) && q != path && q != StageOf(path, body) && Own(fs, q, b)
    ensures Own(fs', q, b)
  {
    hide Stageable, Look;
  }

  lemma StageableElsewhere(fs: Fs, fs': Fs, path: Path, body: Blob, q: Path, b: Blob)
    requires Below(path) && Below(q) && Tree(fs) && Progress(fs, fs', path, body) && Stageable(fs, q, b)
    requires StageOf(q, b) != path && StageOf(q, b) != StageOf(path, body)
    ensures Stageable(fs', q, b)
  {
    hide Look, May;
    var stage := StageOf(q, b);
    forall i, n {:trigger May(fs', stage, Some(FileAt(i))), May(fs', n, Some(FileAt(i)))} |
      May(fs', stage, Some(FileAt(i))) && May(fs', n, Some(FileAt(i))) && n != stage
      ensures n == q && i in fs'.files && fs'.files[i] == Firm(b)
    {
      assert May(fs, stage, Some(FileAt(i)));
      assert i in fs.files;
      assert May(fs, n, Some(FileAt(i)));
    }
  }

  lemma CleanKept(history: History, fs: Fs, fs': Fs, id: Id, k: nat)
    requires GoodHistory(history) && Clean(history, fs) && In(history, id, k)
    requires Below(PathOf(history, id, k)) && Progress(fs, fs', PathOf(history, id, k), BodyOf(history, id, k))
    ensures Clean(history, fs')
  {
    hide Tree, May, Look, Own, Progress, Abs, Ours, Possible, GoodHistory;
    var path, body := PathOf(history, id, k), BodyOf(history, id, k);
    PathFacts(history, id, k);
    forall id': Id, rel: seq<Leaf> {:trigger Abs(id', rel)} | Ours(id'.key, rel) && Possible(fs', Abs(id', rel))
      ensures Accounted(history, Abs(id', rel))
    {
      if Abs(id', rel) != path && Abs(id', rel) != StageOf(path, body) {
        ElsewhereSame(fs, fs', path, body, Abs(id', rel));
      }
    }
  }

  // ------------------------------------------------------------ barriers and power losses

  lemma NarrowsKeepsDurable(history: History, fs: Fs, fs': Fs, id: Id, j: nat)
    requires Narrows(fs, fs') && In(history, id, j) && DurableAt(history, fs, id, j)
    ensures DurableAt(history, fs', id, j)
  {
    hide Durable;
  }

  lemma NarrowsKeepsDisk(history: History, fs: Fs, fs': Fs)
    requires DiskOk(history, fs) && Narrows(fs, fs')
    ensures DiskOk(history, fs')
  {
    hide Tree, May, Below, Durable, PathOf, BodyOf, Abs, Ours, Own, Stageable;
    forall id, k {:trigger In(history, id, k)} | In(history, id, k) ensures FileOk(history, fs', id, k) {
      assert FileOk(history, fs, id, k);
      var p := PathOf(history, id, k);
      OwnNarrows(fs, fs', p, BodyOf(history, id, k));
      if Possible(fs', p) {
        assert Possible(fs, p);
        forall j: nat {:trigger DurableAt(history, fs', id, j)} | j < k ensures DurableAt(history, fs', id, j) {
          assert DurableAt(history, fs, id, j);
        }
      }
    }
    forall id: Id, rel: seq<Leaf> {:trigger Abs(id, rel)} | Ours(id.key, rel) && Possible(fs', Abs(id, rel)) ensures Accounted(history, Abs(id, rel)) {
      assert Possible(fs, Abs(id, rel));
    }
  }

  /** Nothing can be under the paths of a publication that was never journaled, unless it
      clashes with one that was. */
  lemma NewIsFree(history: History, fs: Fs, id: Id, files: seq<File>, k: nat)
    requires GoodHistory(history) && DiskOk(history, fs) && id !in history && Proper(id.key, files)
    requires ClashFree(history[id := files]) && k < |files|
    ensures var p := Abs(id, files[k].rel);
            Below(p) && !Possible(fs, p) && !Possible(fs, StageOf(p, files[k].body))
  {
    hide Tree, May, Look, Durable, FileOk, Owns;
    var after := history[id := files];
    assert In(after, id, k);
    GoodMore(history, id, files);
    PathFacts(after, id, k);
    var p, stage := PathOf(after, id, k), StagingOf(after, id, k);
    OursToo(id.key, files[k].rel, files[k].body);
    if Possible(fs, p) {
      assert Accounted(history, Abs(id, files[k].rel));
      NotAccounted(history, id, files, k);
    }
    if Possible(fs, stage) {
      assert Accounted(history, Abs(id, StageRel(files[k].rel, files[k].body)));
      NotAccounted(history, id, files, k);
    }
  }

  lemma GoodMore(history: History, id: Id, files: seq<File>)
    requires GoodHistory(history) && Proper(id.key, files)
    ensures GoodHistory(history[id := files])
  {
    hide Proper;
  }

  lemma OursToo(key: Key, rel: seq<Leaf>, body: Blob)
    requires rel != [] && Owns(key, rel)
    ensures Ours(key, rel) && Ours(key, StageRel(rel, body))
  {
    hide Owns;
    var s := StageRel(rel, body);
    assert s[..|s| - 1] + [s[|s| - 1].of] == rel;
  }

  lemma NotAccounted(history: History, id: Id, files: seq<File>, k: nat)
    requires GoodHistory(history) && id !in history && Proper(id.key, files) && k < |files| && ClashFree(history[id := files])
    ensures !Accounted(history, Abs(id, files[k].rel)) && !Accounted(history, Abs(id, StageRel(files[k].rel, files[k].body)))
  {
    hide Proper, Abs, GoodHistory;
    var after := history[id := files];
    GoodMore(history, id, files);
    assert In(after, id, k);
    PathFacts(after, id, k);
    forall id', k': nat {:trigger In(history, id', k')} | In(history, id', k')
      ensures PathOf(history, id', k') != PathOf(after, id, k) && StagingOf(history, id', k') != PathOf(after, id, k)
      ensures PathOf(history, id', k') != StagingOf(after, id, k) && StagingOf(history, id', k') != StagingOf(after, id, k)
    {
      assert In(after, id', k');
      PathsSeparate(after, id', k', id, k);
    }
  }

  /** A new publication, whose paths nothing on the disk can hold yet. */
  lemma JournalKeepsDisk(history: History, fs: Fs, id: Id, files: seq<File>)
    requires GoodHistory(history) && DiskOk(history, fs) && id !in history && Proper(id.key, files) && ClashFree(history[id := files])
    ensures GoodHistory(history[id := files]) && DiskOk(history[id := files], fs)
  {
    hide Tree, May, Look, Below, Durable, Abs, Ours, Proper, ClashFree;
    var after := history[id := files];
    GoodMore(history, id, files);
    forall id', k: nat {:trigger In(after, id', k)} | In(after, id', k) ensures FileOk(after, fs, id', k) {
      if id' == id {
        NewIsFree(history, fs, id, files, k);
        FreeIsOk(fs, PathOf(after, id, k), files[k].body);
      } else {
        assert In(history, id', k) && FileOk(history, fs, id', k);
        if Possible(fs, PathOf(after, id', k)) {
          forall j: nat {:trigger DurableAt(after, fs, id', j)} | j < k ensures DurableAt(after, fs, id', j) {
            assert DurableAt(history, fs, id', j);
          }
        }
      }
    }
    forall id': Id, rel: seq<Leaf> {:trigger Abs(id', rel)} | Ours(id'.key, rel) && Possible(fs, Abs(id', rel)) ensures Accounted(after, Abs(id', rel)) {
      AccountedMore(history, id, files, Abs(id', rel));
    }
  }

  lemma FreeIsOk(fs: Fs, p: Path, body: Blob)
    requires Below(p) && !Possible(fs, p) && !Possible(fs, StageOf(p, body))
    ensures Own(fs, p, body) && Stageable(fs, p, body)
  {
    hide May;
  }

  lemma AccountedMore(history: History, id: Id, files: seq<File>, p: Path)
    requires Accounted(history, p) && id !in history
    ensures Accounted(history[id := files], p)
  {
    var id', k :| In(history, id', k) && (p == PathOf(history, id', k) || p == StagingOf(history, id', k));
    assert In(history[id := files], id', k);
  }

  lemma FewerClashes(history: History, id: Id, files: seq<File>)
    requires id !in history && ClashFree(history[id := files])
    ensures ClashFree(history)
  {
    var after := history[id := files];
    forall a, k, b, l {:trigger In(history, a, k), In(history, b, l)} | In(history, a, k) && In(history, b, l)
      ensures PathOf(history, a, k) != StagingOf(history, b, l)
    {
      assert In(after, a, k) && In(after, b, l);
    }
  }

  /** What was durable in any publication stays so while a file is installed. */
  lemma DurableKept(history: History, fs: Fs, fs': Fs, id: Id, k: nat, id': Id, j: nat)
    requires GoodHistory(history) && ClashFree(history) && In(history, id, k) && In(history, id', j) && Below(PathOf(history, id, k))
    requires Progress(fs, fs', PathOf(history, id, k), BodyOf(history, id, k)) && DurableAt(history, fs, id', j)
    ensures DurableAt(history, fs', id', j)
  {
    hide Progress, Durable, GoodHistory;
    PathFacts(history, id', j);
    PathFacts(history, id, k);
    assert In(history, id', j) && In(history, id, k);
    InstallKeepsDurable(fs, fs', PathOf(history, id, k), BodyOf(history, id, k), PathOf(history, id', j), BodyOf(history, id', j));
  }

  // ------------------------------------------------------------ main results on the disk

  /** File j of the publication is there, complete. */
  predicate Arrived(history: History, fs: Fs, id: Id, j: nat)
    requires In(history, id, j)
  {
    BodyAt(fs, PathOf(history, id, j)) == Some(BodyOf(history, id, j))
  }

  /** If the marker of a publication, or any file of it, is there after a power loss at any
      moment, then it is complete, and every earlier file is there with its bytes. */
  lemma MarkerMeansAll(history: History, fs: Fs, fs': Fs, id: Id, k: nat)
    requires DiskOk(history, fs) && (fs' == fs || PowerLoss(fs, fs')) && In(history, id, k)
    requires Look(fs', PathOf(history, id, k)).Some? && Look(fs', PathOf(history, id, k)).value.FileAt?
    ensures forall j: nat {:trigger Arrived(history, fs', id, j)} :: j <= k ==> Arrived(history, fs', id, j)
  {
    hide Tree, May, Durable, PathOf, BodyOf, Below, Stageable;
    if fs' != fs {
      LossIsNarrow(fs, fs');
      NarrowsKeepsDisk(history, fs, fs');
    }
    assert FileOk(history, fs', id, k);
    var p := PathOf(history, id, k);
    MayNow(fs', p);
    var e := Look(fs', p).value;
    assert May(fs', p, Some(FileAt(e.inode))) && Possible(fs', p);
    FirmReads(fs', p, e.inode, BodyOf(history, id, k));
    forall j: nat {:trigger Arrived(history, fs', id, j)} | j < k ensures Arrived(history, fs', id, j) {
      assert DurableAt(history, fs', id, j);
      DurableReads(fs', PathOf(history, id, j), BodyOf(history, id, j));
    }
  }

  // ------------------------------------------------------------ the journal

  datatype Pub = Pub(digest: Digest, done: bool)

  /** One row of the table of pending bodies. */
  datatype Row = Row(id: Id, file: File)

  datatype Kind = Job | Cancelled | Probe

  datatype Known = Known(target: string, kind: Kind, name: string)

  function RowsOf(table: seq<Row>, id: Id): seq<File> {
    if table == [] then []
    else RowsOf(table[..|table| - 1], id) + (if table[|table| - 1].id == id then [table[|table| - 1].file] else [])
  }

  function Without(table: seq<Row>, id: Id): seq<Row> {
    if table == [] then []
    else Without(table[..|table| - 1], id) + (if table[|table| - 1].id == id then [] else [table[|table| - 1]])
  }

  function Tagged(id: Id, files: seq<File>): seq<Row> {
    seq(|files|, i requires 0 <= i < |files| => Row(id, files[i]))
  }

  function Pending(length: Blob -> nat, table: seq<Row>): nat {
    if table == [] then 0 else Pending(length, table[..|table| - 1]) + length(table[|table| - 1].file.body)
  }

  lemma {:induction false} AppendTagged(length: Blob -> nat, table: seq<Row>, id: Id, files: seq<File>, id': Id)
    ensures RowsOf(table + Tagged(id, files), id') == RowsOf(table, id') + (if id' == id then files else [])
    ensures Pending(length, table + Tagged(id, files)) == Pending(length, table) + Bytes(length, files)
  {
    if files == [] {
      assert table + Tagged(id, files) == table;
      assert RowsOf(table, id') + [] == RowsOf(table, id');
    } else {
      var init, last := files[..|files| - 1], files[|files| - 1];
      AppendTagged(length, table, id, init, id');
      TaggedLast(table, id, files);
      RowsLast(length, table + Tagged(id, init), Row(id, last), id');
      assert files == init + [last];
      if id' == id { assert RowsOf(table, id') + init + [last] == RowsOf(table, id') + files; }
    }
  }

  lemma TaggedLast(table: seq<Row>, id: Id, files: seq<File>)
    requires files != []
    ensures table + Tagged(id, files) == table + Tagged(id, files[..|files| - 1]) + [Row(id, files[|files| - 1])]
  {
  }

  lemma RowsLast(length: Blob -> nat, table: seq<Row>, row: Row, id: Id)
    ensures RowsOf(table + [row], id) == RowsOf(table, id) + (if row.id == id then [row.file] else [])
    ensures Pending(length, table + [row]) == Pending(length, table) + length(row.file.body)
  {
    assert (table + [row])[..|table|] == table;
  }

  lemma {:induction false} WithoutFacts(length: Blob -> nat, table: seq<Row>, id: Id, id': Id)
    ensures RowsOf(Without(table, id), id') == if id' == id then [] else RowsOf(table, id')
    ensures Pending(length, Without(table, id)) <= Pending(length, table)
  {
    if table != [] {
      var init, last := table[..|table| - 1], table[|table| - 1];
      WithoutFacts(length, init, id, id');
      if last.id != id {
        assert Without(table, id)[..|Without(table, id)| - 1] == Without(init, id);
      } else {
        assert Without(table, id) == Without(init, id);
      }
    }
  }

  /** What the journal keeps: bodies exist exactly for the publications not yet done and
      match their digests, and every budget holds. */
  ghost predicate JournalOk(limits: Limits, length: Blob -> nat, pubs: map<Id, Pub>, table: seq<Row>, known: set<Known>, history: History) {
    && history.Keys == pubs.Keys
    && (forall id {:trigger pubs[id]} :: id in pubs ==> Digested(history[id]) == pubs[id].digest && Admits(limits, length, history[id]))
    && (forall id {:trigger RowsOf(table, id)} :: RowsOf(table, id) == if id in pubs && !pubs[id].done then history[id] else [])
    && |pubs| <= limits.maxPublications
    && Pending(length, table) <= limits.maxPendingBytes
    && |known| <= limits.maxEntries
  }

  // ------------------------------------------------------------ what is done

  /** The staging names of the first k files lead to nothing, and nothing can come back. */
  ghost predicate Gone(history: History, fs: Fs, id: Id, k: nat)
    requires id in history && k <= |history[id]|
  {
    forall j: nat {:trigger StagingOf(history, id, j)} :: j < k ==> !Possible(fs, StagingOf(history, id, j))
  }

  /** The first k files are durable, and nothing of their staging is left. */
  ghost predicate Whole(history: History, fs: Fs, id: Id, k: nat)
    requires id in history && k <= |history[id]|
  {
    DurableUpTo(history, fs, id, k) && Gone(history, fs, id, k)
  }

  predicate IsDone(pubs: map<Id, Pub>, id: Id) {
    id in pubs && pubs[id].done
  }

  /** A publication marked done is whole. */
  ghost predicate DoneWhole(pubs: map<Id, Pub>, history: History, fs: Fs) {
    forall id {:trigger IsDone(pubs, id)} :: IsDone(pubs, id) && id in history ==> Whole(history, fs, id, |history[id]|)
  }

  /** The destination as the relay keeps it, when no names clash. */
  ghost predicate Fine(pubs: map<Id, Pub>, history: History, fs: Fs) {
    DiskOk(history, fs) && DoneWhole(pubs, history, fs)
  }

  lemma WholeNarrows(history: History, fs: Fs, fs': Fs, id: Id, k: nat)
    requires id in history && k <= |history[id]| && Narrows(fs, fs')
    ensures DurableUpTo(history, fs, id, k) ==> DurableUpTo(history, fs', id, k)
    ensures Gone(history, fs, id, k) ==> Gone(history, fs', id, k)
  {
    hide DurableAt, StagingOf, Tree, May, Durable;
    if DurableUpTo(history, fs, id, k) {
      forall j: nat {:trigger DurableAt(history, fs', id, j)} | j < k ensures DurableAt(history, fs', id, j) {
        assert DurableAt(history, fs, id, j);
        NarrowsKeepsDurable(history, fs, fs', id, j);
      }
    }
  }

  lemma NarrowsKeepsFine(pubs: map<Id, Pub>, history: History, fs: Fs, fs': Fs)
    requires Fine(pubs, history, fs) && Narrows(fs, fs')
    ensures Fine(pubs, history, fs')
  {
    hide DiskOk, Narrows, DurableUpTo, Gone;
    NarrowsKeepsDisk(history, fs, fs');
    forall id {:trigger IsDone(pubs, id)} | IsDone(pubs, id) && id in history ensures Whole(history, fs', id, |history[id]|) {
      assert Whole(history, fs, id, |history[id]|);
      WholeNarrows(history, fs, fs', id, |history[id]|);
    }
  }

  /** An install leaves the files and the staging names of others as they are. */
  lemma InstallKeepsWhole(history: History, fs: Fs, fs': Fs, id: Id, k: nat, id': Id, n: nat)
    requires GoodHistory(history) && ClashFree(history) && In(history, id, k) && id' in history && n <= |history[id']|
    requires id' == id ==> n <= k
    requires Below(PathOf(history, id, k)) && Progress(fs, fs', PathOf(history, id, k), BodyOf(history, id, k))
    ensures DurableUpTo(history, fs, id', n) ==> DurableUpTo(history, fs', id', n)
    ensures Gone(history, fs, id', n) ==> Gone(history, fs', id', n)
  {
    hide Progress, DurableAt, Below, PathOf, BodyOf, StagingOf, GoodHistory, ClashFree, Possible;
    if DurableUpTo(history, fs, id', n) {
      forall j: nat {:trigger DurableAt(history, fs', id', j)} | j < n ensures DurableAt(history, fs', id', j) {
        assert DurableAt(history, fs, id', j);
        DurableKept(history, fs, fs', id, k, id', j);
      }
    }
    if Gone(history, fs, id', n) {
      forall j: nat {:trigger StagingOf(history, id', j)} | j < n ensures !Possible(fs', StagingOf(history, id', j)) {
        StagingKept(history, fs, fs', id, k, id', j);
      }
    }
  }

  lemma StagingKept(history: History, fs: Fs, fs': Fs, id: Id, k: nat, id': Id, j: nat)
    requires GoodHistory(history) && ClashFree(history) && In(history, id, k) && In(history, id', j) && (id' == id ==> j != k)
    requires Below(PathOf(history, id, k)) && Progress(fs, fs', PathOf(history, id, k), BodyOf(history, id, k))
    ensures Possible(fs', StagingOf(history, id', j)) ==> Possible(fs, StagingOf(history, id', j))
  {
    hide Progress, Possible, Below, GoodHistory;
    PathFacts(history, id, k);
    PathsSeparate(history, id, k, id', j);
    assert In(history, id, k) && In(history, id', j);
    ElsewhereSame(fs, fs', PathOf(history, id, k), BodyOf(history, id, k), StagingOf(history, id', j));
  }

  /** One step of installing file k after its predecessors, by a publication not yet done. */
  lemma InstallKeepsFine(pubs: map<Id, Pub>, history: History, fs: Fs, fs': Fs, id: Id, k: nat)
    requires GoodHistory(history) && ClashFree(history) && Fine(pubs, history, fs) && In(history, id, k) && !IsDone(pubs, id)
    requires Whole(history, fs, id, k)
    requires Below(PathOf(history, id, k)) && Progress(fs, fs', PathOf(history, id, k), BodyOf(history, id, k))
    ensures Fine(pubs, history, fs') && Whole(history, fs', id, k)
  {
    hide Progress, GoodHistory, ClashFree, DiskOk, DurableUpTo, Gone, Below, PathOf, BodyOf;
    InstallKeepsDisk(history, fs, fs', id, k);
    InstallKeepsWhole(history, fs, fs', id, k, id, k);
    forall id' {:trigger IsDone(pubs, id')} | IsDone(pubs, id') && id' in history ensures Whole(history, fs', id', |history[id']|) {
      assert Whole(history, fs, id', |history[id']|);
      InstallKeepsWhole(history, fs, fs', id, k, id', |history[id']|);
    }
  }

  // ------------------------------------------------------------ a delivery, state by state

  function ItemOf(id: Id, file: File): Item {
    Item(Abs(id, file.rel), file.body)
  }

  function Items(id: Id, files: seq<File>): seq<Item> {
    seq(|files|, i requires 0 <= i < |files| => ItemOf(id, files[i]))
  }

  /** Something other than a file of its own keeps a file from its path. */
  ghost predicate Blocking(fs: Fs, path: Path, body: Blob)
    requires Below(path)
  {
    InTheWay(fs, path) || Look(fs, path) == Some(Directory) || Look(fs, StageOf(path, body)) == Some(Directory)
  }

  /** What blocks an install was there before it. */
  lemma BlockedBefore(fs: Fs, e: Fs, outcome: Outcome, path: Path, body: Blob)
    requires Below(path) && Progress(fs, e, path, body) && Done(fs, e, outcome, path, body) && Stageable(fs, path, body)
    requires outcome in {Blocked, Refused} || Look(e, path) == Some(Directory)
    ensures Blocking(fs, path, body)
  {
    hide Stageable, Released, Single, Tree, Staged, May;
    if outcome.Blocked? {
      var k :| 2 <= k < |path| && Look(e, path[..k]).Some? && !HasDir(e, path[..k]);
      PrefixFacts(path, k);
      assert Look(e, path[..k]) == Look(fs, path[..k]);
      assert !HasDir(fs, path[..k]);
    }
  }

  /** Every state of a delivery keeps everything; when it succeeds, one more file is whole,
      and when it fails, something was in its way. */
  lemma DeliverKeeps(pubs: map<Id, Pub>, history: History, fs: Fs, id: Id, k: nat)
    requires GoodHistory(history) && ClashFree(history) && Fine(pubs, history, fs) && In(history, id, k) && !IsDone(pubs, id)
    requires Whole(history, fs, id, k)
    ensures var item := ItemOf(id, history[id][k]);
            && Below(item.path)
            && var w := DeliverWalk(fs, item);
               && (forall m {:trigger w.states[m]} :: 0 <= m < |w.states| ==> Fine(pubs, history, w.states[m]))
               && Fine(pubs, history, End(fs, w)) && Whole(history, End(fs, w), id, k)
               && (w.outcome.Installed? ==> Whole(history, End(fs, w), id, k + 1))
               && (!w.outcome.Installed? ==> Blocking(fs, item.path, item.body))
  {
    hide Progress, GoodHistory, ClashFree, Fine, Whole, FlushWalk, InstallWalk, Keeps, Narrows, Stageable, Own, Owned, Single, Blocking, Tree, Released, InTheWay, SameLook, Reads, Flushed;
    var item := ItemOf(id, history[id][k]);
    DeliverParts(pubs, history, fs, id, k);
    var path, body := item.path, item.body;
    var install := InstallWalk(fs, path, body);
    var at := End(fs, install);
    InstallWalkKeeps(fs, path, body);
    KeepsFine(pubs, history, fs, id, k, install);
    if install.outcome in {Installed, Exists} { DoneFrees(fs, at, install.outcome, path, body); }
    if install.outcome in {Installed, Exists} && Reads(at, path, body) {
      FlushKeepsFine(pubs, history, at, id, k);
      var flush := FlushWalk(at, path, |path| - 1);
      EndThen(fs, install, flush);
      var w := DeliverWalk(fs, item);
      assert w == Then(install, flush);
      assert w.states == install.states + flush.states;
      forall m {:trigger w.states[m]} | 0 <= m < |w.states| ensures Fine(pubs, history, w.states[m]) {
        assert m >= |install.states| ==> w.states[m] == flush.states[m - |install.states|];
      }
    } else {
      AfterInstall(fs, at, path, body);
      NotReads(at, path, body);
      BlockedBefore(fs, at, install.outcome, path, body);
    }
  }

  lemma DoneFrees(fs: Fs, e: Fs, outcome: Outcome, path: Path, body: Blob)
    requires Below(path) && Done(fs, e, outcome, path, body) && outcome in {Installed, Exists}
    ensures Look(e, StageOf(path, body)).None?
  {
    hide Stageable, Single;
  }

  lemma NotReads(fs: Fs, path: Path, body: Blob)
    ensures Reads(fs, path, body) <==> Single(fs, path, body)
  {
  }

  lemma DeliverParts(pubs: map<Id, Pub>, history: History, fs: Fs, id: Id, k: nat)
    requires GoodHistory(history) && Fine(pubs, history, fs) && In(history, id, k)
    ensures var item := ItemOf(id, history[id][k]);
            && item == Item(PathOf(history, id, k), BodyOf(history, id, k)) && Below(item.path) && Tree(fs)
            && Own(fs, item.path, item.body) && Stageable(fs, item.path, item.body)
            && |item.path| == |history[id][k].rel| + 1
  {
    hide Tree, Own, Stageable, Clean, GoodHistory;
    assert FileOk(history, fs, id, k);
  }

  lemma KeepsFine(pubs: map<Id, Pub>, history: History, fs: Fs, id: Id, k: nat, w: Walk)
    requires GoodHistory(history) && ClashFree(history) && Fine(pubs, history, fs) && In(history, id, k) && !IsDone(pubs, id)
    requires Whole(history, fs, id, k)
    requires Below(PathOf(history, id, k)) && Keeps(fs, w, PathOf(history, id, k), BodyOf(history, id, k))
    requires Progress(fs, End(fs, w), PathOf(history, id, k), BodyOf(history, id, k))
    ensures forall m {:trigger w.states[m]} :: 0 <= m < |w.states| ==> Fine(pubs, history, w.states[m])
    ensures Fine(pubs, history, End(fs, w)) && Whole(history, End(fs, w), id, k)
  {
    hide Progress, GoodHistory, ClashFree, Fine, Whole, PathOf, BodyOf;
    forall m {:trigger w.states[m]} | 0 <= m < |w.states| ensures Fine(pubs, history, w.states[m]) {
      InstallKeepsFine(pubs, history, fs, w.states[m], id, k);
    }
    InstallKeepsFine(pubs, history, fs, End(fs, w), id, k);
  }

  lemma FlushKeepsFine(pubs: map<Id, Pub>, history: History, fs: Fs, id: Id, k: nat)
    requires GoodHistory(history) && Fine(pubs, history, fs) && In(history, id, k) && Whole(history, fs, id, k)
    requires Below(PathOf(history, id, k)) && Reads(fs, PathOf(history, id, k), BodyOf(history, id, k))
    requires Look(fs, StageOf(PathOf(history, id, k), BodyOf(history, id, k))).None?
    ensures var w := FlushWalk(fs, PathOf(history, id, k), |PathOf(history, id, k)| - 1);
            && (forall m {:trigger w.states[m]} :: 0 <= m < |w.states| ==> Fine(pubs, history, w.states[m]))
            && Fine(pubs, history, End(fs, w)) && Whole(history, End(fs, w), id, k) && Whole(history, End(fs, w), id, k + 1)
            && w.outcome == Installed
  {
    hide Fine, DurableUpTo, Gone, Narrows, Tree, Own, Stageable, Flushed, FlushWalk, Look, LinkCount, GoodHistory, BodyAt, PathOf, BodyOf, StagingOf, Below;
    var path, body := PathOf(history, id, k), BodyOf(history, id, k);
    DeliverParts(pubs, history, fs, id, k);
    FlushNone(fs, path);
    FlushWalkNarrows(fs, path, |path| - 1);
    var w := FlushWalk(fs, path, |path| - 1);
    var e := End(fs, w);
    forall m {:trigger w.states[m]} | 0 <= m < |w.states| ensures Fine(pubs, history, w.states[m]) {
      NarrowsKeepsFine(pubs, history, fs, w.states[m]);
    }
    NarrowsKeepsFine(pubs, history, fs, e);
    WholeNarrows(history, fs, e, id, k);
    DeliverParts(pubs, history, e, id, k);
    FlushedIsDurable(e, path, body);
    FlushedIsGone(e, path, body);
    OneMore(history, e, id, k);
  }

  lemma OneMore(history: History, fs: Fs, id: Id, k: nat)
    requires GoodHistory(history) && In(history, id, k) && Whole(history, fs, id, k) && Durable(fs, PathOf(history, id, k), BodyOf(history, id, k))
    requires Below(PathOf(history, id, k)) && forall i :: !May(fs, StageOf(PathOf(history, id, k), BodyOf(history, id, k)), Some(FileAt(i)))
    ensures Whole(history, fs, id, k + 1)
  {
    hide Durable, PathOf, BodyOf, May, GoodHistory;
    PathFacts(history, id, k);
    forall j: nat {:trigger DurableAt(history, fs, id, j)} | j < k + 1 ensures DurableAt(history, fs, id, j) {
    }
  }

  lemma ItemsBelow(id: Id, files: seq<File>)
    requires Proper(id.key, files)
    ensures AllBelow(Items(id, files)) && forall k {:trigger files[..k]} :: 0 <= k <= |files| ==> AllBelow(Items(id, files[..k]))
  {
    hide Owns;
    forall i {:trigger Items(id, files)[i]} | 0 <= i < |files| ensures Below(Items(id, files)[i].path) {
      OwnedPath(id, files[i].rel);
    }
    forall k {:trigger files[..k]} | 0 <= k <= |files| ensures AllBelow(Items(id, files[..k])) {
      assert Items(id, files[..k]) == Items(id, files)[..k];
    }
  }

  // ------------------------------------------------------------ a replay, state by state

  predicate IsFile(fs: Fs, p: Path) {
    Look(fs, p).Some? && Look(fs, p).value.FileAt?
  }

  /** One of the first k files lies below the path, or is at it. */
  ghost predicate Over(id: Id, files: seq<File>, k: nat, p: Path) {
    exists i {:trigger files[i]} :: 0 <= i < k && i < |files| && p < Abs(id, files[i].rel)
  }

  ghost predicate OneOf(id: Id, files: seq<File>, k: nat, p: Path) {
    exists i {:trigger files[i]} :: 0 <= i < k && i < |files| && p == Abs(id, files[i].rel)
  }

  /** The only new entries are the first k files and directories above them. */
  ghost predicate Grown(fs: Fs, fs': Fs, id: Id, files: seq<File>, k: nat) {
    && (forall p {:trigger Look(fs', p)} :: Look(fs', p) == Some(Directory) ==> Look(fs, p) == Some(Directory) || Over(id, files, k, p))
    && (forall p {:trigger IsFile(fs', p)} :: IsFile(fs', p) ==> IsFile(fs, p) || OneOf(id, files, k, p))
  }

  lemma GrownSelf(fs: Fs, id: Id, files: seq<File>)
    ensures Grown(fs, fs, id, files, 0)
  {
  }

  lemma GrownMore(fs: Fs, a: Fs, e: Fs, id: Id, files: seq<File>, k: nat)
    requires Grown(fs, a, id, files, k) && k < |files| && Below(Abs(id, files[k].rel))
    requires Delivered(a, e, Abs(id, files[k].rel), files[k].body)
    ensures Grown(fs, e, id, files, k + 1)
  {
    hide Abs, Reads, Look;
    var path, body := Abs(id, files[k].rel), files[k].body;
    ReadsFacts(e, path, body);
    forall p {:trigger Look(e, p)} | Look(e, p) == Some(Directory) ensures Look(fs, p) == Some(Directory) || Over(id, files, k + 1, p) {
      if Look(a, p) == Some(Directory) {
        assert Over(id, files, k, p) ==> Over(id, files, k + 1, p);
      } else {
        assert p != path && p != StageOf(path, body);
        assert p < Abs(id, files[k].rel);
      }
    }
    forall p {:trigger IsFile(e, p)} | IsFile(e, p) ensures IsFile(fs, p) || OneOf(id, files, k + 1, p) {
      if p == path {
        assert p == Abs(id, files[k].rel);
      } else {
        assert IsFile(a, p);
        assert OneOf(id, files, k, p) ==> OneOf(id, files, k + 1, p);
      }
    }
  }

  /** File k lies above or below an earlier file of the publication, or its staging name
      lies above one. */
  ghost predicate Nested(files: seq<File>, k: nat)
    requires k < |files| && files[k].rel != []
  {
    exists j {:trigger files[j]} :: 0 <= j < k && (files[j].rel < files[k].rel || files[k].rel < files[j].rel
                                                   || StageRel(files[k].rel, files[k].body) < files[j].rel)
  }

  /** The first k files can be delivered one after the other. */
  ghost predicate Fits(files: seq<File>, k: nat) {
    forall i: nat {:trigger Nested(files, i)} :: i < k && i < |files| && files[i].rel != [] ==> !Nested(files, i)
  }

  /** What keeps file k from its path: something at the destination, or an earlier file. */
  ghost predicate Obstructed(fs: Fs, id: Id, files: seq<File>, k: nat)
    requires k < |files| && files[k].rel != []
  {
    Blocking(fs, Abs(id, files[k].rel), files[k].body) || Nested(files, k)
  }

  /** A file nested with an earlier one that is durable cannot be delivered. */
  lemma NestedFails(history: History, fs: Fs, id: Id, k: nat)
    requires GoodHistory(history) && In(history, id, k) && Tree(fs) && DurableUpTo(history, fs, id, k)
    requires history[id][k].rel != [] && Nested(history[id], k)
    ensures Below(Abs(id, history[id][k].rel)) && !DeliverWalk(fs, ItemOf(id, history[id][k])).outcome.Installed?
  {
    hide Abs, DeliverWalk, Durable, GoodHistory, Reads;
    var files := history[id];
    PathFacts(history, id, k);
    var path, body := PathOf(history, id, k), BodyOf(history, id, k);
    var stage := StageOf(path, body);
    StageFacts(path, body);
    var w := DeliverWalk(fs, ItemOf(id, files[k]));
    DeliverDoes(fs, ItemOf(id, files[k]));
    if w.outcome.Installed? {
      var e := End(fs, w);
      DeliverFacts(fs, ItemOf(id, files[k]));
      TreeAt(fs, w, 0);
      var j :| 0 <= j < k && (files[j].rel < files[k].rel || files[k].rel < files[j].rel || StageRel(files[k].rel, body) < files[j].rel);
      assert In(history, id, j) && DurableAt(history, fs, id, j);
      var q := PathOf(history, id, j);
      AbsLess(id, files[j].rel, files[k].rel);
      AbsLess(id, files[k].rel, files[j].rel);
      AbsLess(id, StageRel(files[k].rel, body), files[j].rel);
      ReadsFacts(e, path, body);
      if path < q {
        DirAbove(fs, q, BodyOf(history, id, j), path);
      } else if stage < q {
        DirAbove(fs, q, BodyOf(history, id, j), stage);
      } else {
        FileStays(fs, e, q, BodyOf(history, id, j), path, stage);
        DirThere(e, q, path);
      }
    }
  }

  lemma DirAbove(fs: Fs, q: Path, body: Blob, p: Path)
    requires Durable(fs, q, body) && 2 <= |p| && p < q
    ensures Look(fs, p) == Some(Directory)
  {
    assert q[..|p|] == p;
  }

  /** A path cannot hold a file and be above a file that is there. */
  lemma NestedIsNeverWhole(history: History, fs: Fs, id: Id, i: nat, j: nat)
    requires GoodHistory(history) && In(history, id, i) && In(history, id, j) && history[id][i].rel < history[id][j].rel
    ensures !DurableUpTo(history, fs, id, |history[id]|)
  {
    hide Abs, Durable;
    PathFacts(history, id, i);
    AbsLess(id, history[id][i].rel, history[id][j].rel);
    if DurableUpTo(history, fs, id, |history[id]|) {
      assert DurableAt(history, fs, id, i) && DurableAt(history, fs, id, j);
      DirAbove(fs, PathOf(history, id, j), BodyOf(history, id, j), PathOf(history, id, i));
      DurableIsFile(fs, PathOf(history, id, i), BodyOf(history, id, i));
    }
  }

  lemma DurableIsFile(fs: Fs, p: Path, body: Blob)
    requires Durable(fs, p, body)
    ensures Look(fs, p) != Some(Directory)
  {
  }

  lemma FileStays(fs: Fs, e: Fs, q: Path, body: Blob, path: Path, stage: Path)
    requires Durable(fs, q, body) && q < path && |stage| == |path|
    requires forall p {:trigger Look(e, p)} :: p != path && p != stage ==> Look(e, p) == Look(fs, p) || (Look(fs, p).None? && Look(e, p) == Some(Directory) && p < path)
    ensures |q| > 1 && Look(e, q).Some? && Look(e, q).value.FileAt?
  {
    assert Look(fs, q).Some?;
  }

  lemma DirThere(e: Fs, q: Path, path: Path)
    requires Tree(e) && |q| > 1 && q < path && Look(e, path).Some?
    ensures Look(e, q) == Some(Directory)
  {
    assert path[..|path|] == path;
    Above(e, path, |path|);
    assert path[..|q|] == q;
  }

  /** Whatever blocks a file after the first ones were delivered was there before, or is one
      of those. */
  lemma BlockedIsObstructed(fs: Fs, a: Fs, id: Id, files: seq<File>, k: nat)
    requires k < |files| && files[k].rel != [] && Grown(fs, a, id, files, k)
    requires Blocking(a, Abs(id, files[k].rel), files[k].body)
    ensures Obstructed(fs, id, files, k)
  {
    hide Abs, Grown, Look;
    var path, body := Abs(id, files[k].rel), files[k].body;
    StageOfAbs(id, files[k].rel, body);
    var stage := StageOf(path, body);
    if !Blocking(fs, path, body) {
      forall j {:trigger files[j]} | 0 <= j < k
        ensures path < Abs(id, files[j].rel) ==> files[k].rel < files[j].rel
        ensures stage < Abs(id, files[j].rel) ==> StageRel(files[k].rel, body) < files[j].rel
        ensures Abs(id, files[j].rel) < path ==> files[j].rel < files[k].rel
      {
        AbsLess(id, files[k].rel, files[j].rel);
        AbsLess(id, StageRel(files[k].rel, body), files[j].rel);
        AbsLess(id, files[j].rel, files[k].rel);
      }
      if InTheWay(a, path) {
        var n :| 2 <= n < |path| && Look(a, path[..n]).Some? && !HasDir(a, path[..n]);
        GrownAt(fs, a, id, files, k, path[..n]);
        assert Look(fs, path[..n]).Some? && !HasDir(fs, path[..n]) ==> InTheWay(fs, path);
        assert path[..n] < path;
      } else if Look(a, path) == Some(Directory) {
        GrownAt(fs, a, id, files, k, path);
      } else {
        GrownAt(fs, a, id, files, k, stage);
      }
    }
  }

  lemma GrownAt(fs: Fs, a: Fs, id: Id, files: seq<File>, k: nat, p: Path)
    requires Grown(fs, a, id, files, k)
    ensures Look(a, p) == Some(Directory) ==> Look(fs, p) == Some(Directory) || Over(id, files, k, p)
    ensures Look(a, p).Some? && Look(a, p).value.FileAt? ==> (Look(fs, p).Some? && Look(fs, p).value.FileAt?) || OneOf(id, files, k, p)
  {
    hide Look;
    assert Look(a, p).Some? && Look(a, p).value.FileAt? ==> IsFile(a, p);
  }

  lemma AbsLess(id: Id, a: seq<Leaf>, b: seq<Leaf>)
    ensures Abs(id, a) < Abs(id, b) <==> a < b
  {
    if Abs(id, a) < Abs(id, b) { AbsFacts(id, a, id, b); }
  }

  /** The replay of the first k files keeps everything in each of its states; when it
      succeeds, they are whole, and when it fails, something was in the way. */
  lemma {:induction false} PassKeeps(pubs: map<Id, Pub>, history: History, fs: Fs, id: Id, k: nat)
    requires GoodHistory(history) && ClashFree(history) && Fine(pubs, history, fs) && id in history && k <= |history[id]| && !IsDone(pubs, id)
    ensures AllBelow(Items(id, history[id]))
    ensures var w := PassWalk(fs, Items(id, history[id])[..k]);
            && (forall m {:trigger w.states[m]} :: 0 <= m < |w.states| ==> Fine(pubs, history, w.states[m]))
            && Fine(pubs, history, End(fs, w))
            && (w.outcome.Installed? ==> Whole(history, End(fs, w), id, k) && Grown(fs, End(fs, w), id, history[id], k) && Fits(history[id], k))
            && (!w.outcome.Installed? ==> Hindered(history, fs, id, k))
  {
    hide GoodHistory, ClashFree, Fine, Whole, DeliverWalk, Grown, Obstructed, Blocking, Items, Delivered, Fits, Nested;
    var files, items := history[id], Items(id, history[id]);
    ProperOf(history, id);
    ItemsBelow(id, files);
    if k == 0 {
      GrownSelf(fs, id, files);
      NothingYet(history, fs, id);
    } else {
      PassKeeps(pubs, history, fs, id, k - 1);
      ItemsAt(id, files, k - 1);
      PassMore(fs, items, k - 1);
      var past := PassWalk(fs, items[..k - 1]);
      var a := End(fs, past);
      if past.outcome.Installed? {
        var w := DeliverWalk(a, items[k - 1]);
        DeliverKeeps(pubs, history, a, id, k - 1);
        TreeOfFine(pubs, history, a);
        DeliverDoes(a, items[k - 1]);
        EndThen(fs, past, w);
        var all := PassWalk(fs, items[..k]);
        forall m {:trigger all.states[m]} | 0 <= m < |all.states| ensures Fine(pubs, history, all.states[m]) {
          assert m < |past.states| ==> all.states[m] == past.states[m];
          assert m >= |past.states| ==> all.states[m] == w.states[m - |past.states|];
        }
        NotEmptyRel(history, id, k - 1);
        if w.outcome.Installed? {
          GrownMore(fs, a, End(a, w), id, files, k - 1);
          FitsMore(pubs, history, a, id, k - 1);
        } else {
          BlockedIsObstructed(fs, a, id, files, k - 1);
          HinderedBy(history, fs, id, k, k - 1);
        }
      } else {
        HinderedLonger(history, fs, id, k - 1, k);
      }
    }
  }

  lemma FitsMore(pubs: map<Id, Pub>, history: History, fs: Fs, id: Id, k: nat)
    requires GoodHistory(history) && In(history, id, k) && Tree(fs) && Whole(history, fs, id, k) && Fits(history[id], k)
    requires history[id][k].rel != [] && Below(Abs(id, history[id][k].rel)) && DeliverWalk(fs, ItemOf(id, history[id][k])).outcome.Installed?
    ensures Fits(history[id], k + 1)
  {
    hide Nested, DeliverWalk, Tree, DurableUpTo, GoodHistory, Abs;
    if Nested(history[id], k) { NestedFails(history, fs, id, k); }
  }

  /** One of the first k files of the publication is obstructed. */
  ghost predicate Hindered(history: History, fs: Fs, id: Id, k: nat)
    requires id in history && k <= |history[id]|
  {
    exists j: nat {:trigger In(history, id, j)} :: j < k && In(history, id, j) && history[id][j].rel != [] && Obstructed(fs, id, history[id], j)
  }

  lemma HinderedBy(history: History, fs: Fs, id: Id, k: nat, j: nat)
    requires id in history && j < k <= |history[id]| && history[id][j].rel != [] && Obstructed(fs, id, history[id], j)
    ensures Hindered(history, fs, id, k)
  {
    assert In(history, id, j);
  }

  lemma HinderedLonger(history: History, fs: Fs, id: Id, k: nat, n: nat)
    requires id in history && k <= n <= |history[id]| && Hindered(history, fs, id, k)
    ensures Hindered(history, fs, id, n)
  {
    hide Obstructed;
  }

  lemma ProperOf(history: History, id: Id)
    requires GoodHistory(history) && id in history
    ensures Proper(id.key, history[id])
  {
  }

  lemma NotEmptyRel(history: History, id: Id, k: nat)
    requires GoodHistory(history) && In(history, id, k)
    ensures history[id][k].rel != []
  {
    ProperOf(history, id);
  }

  lemma NothingYet(history: History, fs: Fs, id: Id)
    requires id in history
    ensures Whole(history, fs, id, 0) && Fits(history[id], 0)
  {
  }

  lemma ItemsAt(id: Id, files: seq<File>, k: nat)
    requires k < |files|
    ensures |Items(id, files)| == |files| && Items(id, files)[k] == ItemOf(id, files[k]) == Item(Abs(id, files[k].rel), files[k].body)
  {
  }

  lemma TreeOfFine(pubs: map<Id, Pub>, history: History, fs: Fs)
    requires Fine(pubs, history, fs)
    ensures Tree(fs)
  {
  }

  /** Every disk that a replay passes through is a tree, whatever the names. */
  lemma ReplayTrees(fs: Fs, id: Id, files: seq<File>)
    requires Tree(fs) && Proper(id.key, files)
    ensures AllBelow(Items(id, files))
    ensures var w := PassWalk(fs, Items(id, files)); AllTrees(fs, w) && w.outcome != Died && |w.states| <= Steps(Items(id, files))
  {
    hide Tree, DeliverWalk, Proper, Items;
    ItemsBelow(id, files);
    var items := Items(id, files);
    PassFacts(fs, items, |items|);
    assert items[..|items|] == items;
  }

  // ------------------------------------------------------------ the relay

  datatype Verdict =
    | Published          // done, now or already
    | Conflict           // another digest is journaled under this identity
    | TooLarge           // outside the limits of one publication
    | Full               // the journal's budgets are exhausted
    | Deferred           // the destination could not be verified; try again later
    | Stopped            // the process died

  /** Enough steps for a replay and its commit. */
  function StepsForAll(id: Id, files: seq<File>): nat {
    Steps(Items(id, files)) + 1
  }

  /** What one replay does: the walk through the destination, then the commit; the process
      may die before any step. */
  ghost predicate Replayed(fs: Fs, id: Id, files: seq<File>, budget: nat, fs': Fs, verdict: Verdict) {
    AllBelow(Items(id, files)) &&
    var w := PassWalk(fs, Items(id, files));
    if budget < |w.states| then fs' == At(fs, w, budget) && verdict == Stopped
    else fs' == End(fs, w) && verdict == if !w.outcome.Installed? then Deferred else if budget == |w.states| then Stopped else Published
  }

  class Rally {
    const limits: Limits
    const length: Blob -> nat
    const disk: Volume
    var pubs: map<Id, Pub>
    var table: seq<Row>
    var known: set<Known>
    ghost var history: History

    /** The journal is always in order; the destination is, as long as no journaled name is
        another file's staging name. */
    ghost predicate Valid()
      reads this`pubs, this`table, this`known, this`history, disk
    {
      && GoodHistory(history)
      && JournalOk(limits, length, pubs, table, known, history)
      && Tree(disk.fs)
      && (ClashFree(history) ==> Fine(pubs, history, disk.fs))
    }

    constructor (limits: Limits, length: Blob -> nat, fs: Fs)
      requires Tree(fs) && Clean(map[], fs)
      ensures Valid() && fresh(disk) && pubs == map[] && disk.fs == fs
      ensures this.limits == limits && this.length == length
    {
      this.limits, this.length := limits, length;
      disk := new Volume(fs);
      pubs, table, known, history := map[], [], {}, map[];
    }

    /** Remembers an identity, within the budget. */
    method Remember(k: Known) returns (ok: bool)
      requires Valid()
      modifies this`known
      ensures Valid()
      ensures ok <==> k in old(known) || |old(known)| < limits.maxEntries
      ensures known == if ok then old(known) + {k} else old(known)
    {
      hide GoodHistory, ClashFree, Fine, Tree;
      if k in known { return true; }
      if |known| >= limits.maxEntries { return false; }
      known := known + {k};
      return true;
    }

    lemma Parts()
      requires Valid()
      ensures GoodHistory(history) && JournalOk(limits, length, pubs, table, known, history) && Tree(disk.fs)
      ensures ClashFree(history) ==> Fine(pubs, history, disk.fs)
      ensures history.Keys == pubs.Keys
    {
    }

    lemma Rest()
      requires GoodHistory(history) && JournalOk(limits, length, pubs, table, known, history) && Tree(disk.fs)
      requires ClashFree(history) ==> Fine(pubs, history, disk.fs)
      ensures Valid()
    {
    }

    lemma TableFacts(id: Id)
      requires Valid() && id in pubs
      ensures id in history && Digested(history[id]) == pubs[id].digest && Admits(limits, length, history[id]) && Proper(id.key, history[id])
      ensures RowsOf(table, id) == if pubs[id].done then [] else history[id]
    {
      hide Fine, ClashFree, Digested, Admits, Proper, Tree;
    }

    /** Commits a publication as done and drops its bodies. */
    method Finish(id: Id)
      requires Valid() && id in pubs && !pubs[id].done && id in history
      requires ClashFree(history) ==> Whole(history, disk.fs, id, |history[id]|)
      modifies this`pubs, this`table
      ensures Valid()
      ensures pubs == old(pubs)[id := Pub(old(pubs)[id].digest, true)]
      ensures forall other :: RowsOf(table, other) == if other == id then [] else RowsOf(old(table), other)
    {
      hide *;
      Parts();
      JournalEnds(limits, length, pubs, table, known, history, id);
      if ClashFree(history) { DoneGrows(pubs, history, disk.fs, id); }
      pubs := pubs[id := pubs[id].(done := true)];
      table := Without(table, id);
      Rest();
    }

    /** Installs the journaled bodies of a publication in order, the marker last, each
        verified and durable before the next, then commits it as done. */
    method Replay(id: Id, budget: nat) returns (verdict: Verdict)
      requires Valid() && id in pubs
      modifies this`pubs, this`table, disk
      ensures Valid() && id in history
      ensures verdict in {Published, Deferred, Stopped}
      ensures verdict.Published? <==> !old(pubs)[id].done && pubs[id].done
      ensures pubs == if verdict.Published? then old(pubs)[id := Pub(old(pubs)[id].digest, true)] else old(pubs)
      ensures forall other :: RowsOf(table, other) == if other == id && verdict.Published? then [] else RowsOf(old(table), other)
      ensures old(pubs)[id].done ==> verdict == Deferred && disk.fs == old(disk.fs) && table == old(table)
      ensures !old(pubs)[id].done ==> Replayed(old(disk.fs), id, history[id], budget, disk.fs, verdict)
      ensures ClashFree(history) && verdict.Published? ==> Whole(history, disk.fs, id, |history[id]|) && Fits(history[id], |history[id]|)
      ensures ClashFree(history) && verdict.Deferred? && !old(pubs)[id].done ==> Hindered(history, old(disk.fs), id, |history[id]|)
      ensures budget >= StepsForAll(id, history[id]) ==> !verdict.Stopped?
    {
      hide *;
      var rows := RowsOf(table, id);
      TableFacts(id);
      if !Admits(limits, length, rows) || Digested(rows) != pubs[id].digest { return Deferred; }
      if pubs[id].done {
        NothingAdmitted(limits, length);
        assert false;
      }
      ghost var start := disk.fs;
      Parts();
      var outcome, left := Pass(id, rows, budget);
      NotDone(pubs, id);
      AfterPass(pubs, history, start, id, budget, disk.fs, outcome, left);
      Rest();
      if outcome.Died? { return Stopped; }
      if !outcome.Installed? { return Deferred; }
      if left == 0 { return Stopped; }
      Finish(id);
      return Published;
    }

    /** The files of a publication, one after the other. */
    method Pass(id: Id, files: seq<File>, budget: nat) returns (outcome: Outcome, left: nat)
      requires Tree(disk.fs) && Proper(id.key, files)
      modifies disk
      ensures AllBelow(Items(id, files)) && Ran(old(disk.fs), PassWalk(old(disk.fs), Items(id, files)), budget, disk.fs, outcome, left)
    {
      hide *;
      ghost var start, items := disk.fs, Items(id, files);
      ReplayTrees(start, id, files);
      ItemsLength(id, files);
      BelowUpTo(items);
      outcome, left := Installed, budget;
      NoItems(start, items, budget);
      for k := 0 to |files|
        invariant outcome.Installed? && Tree(disk.fs)
        invariant AllBelow(items) && Ran(start, PassWalk(start, items[..k]), budget, disk.fs, Installed, left)
      {
        ItemsAt(id, files, k);
        ghost var a, more := disk.fs, left;
        outcome, left := DeliverFile(disk, ItemOf(id, files[k]), left);
        PassOn(start, items, k, budget, a, more, disk.fs, outcome, left);
        if !outcome.Installed? { return; }
      }
      assert items[..|files|] == items;
    }

    /** A power loss at any moment between two steps. */
    method LosePower(fs: Fs)
      requires Valid() && PowerLoss(disk.fs, fs)
      modifies disk
      ensures Valid() && disk.fs == fs
    {
      hide *;
      Parts();
      LossIsNarrow(disk.fs, fs);
      NarrowsTree(disk.fs, fs);
      if ClashFree(history) { NarrowsKeepsFine(pubs, history, disk.fs, fs); }
      disk.fs := fs;
      Rest();
    }

    /** Journals a validated publication, or recognizes the one already journaled, before
        the first effect at the destination; then replays it. */
    method Publish(id: Id, files: seq<File>, budget: nat) returns (verdict: Verdict)
      requires Valid() && Proper(id.key, files)
      modifies this`pubs, this`table, this`history, disk
      ensures Valid()
      ensures verdict.TooLarge? <==> !Admits(limits, length, files)
      ensures verdict.Conflict? <==> Admits(limits, length, files) && id in old(pubs) && old(pubs)[id].digest != Digested(files)
      ensures verdict.Full? <==>
                && Admits(limits, length, files) && id !in old(pubs)
                && (|old(pubs)| >= limits.maxPublications || Pending(length, old(table)) + Bytes(length, files) > limits.maxPendingBytes)
      ensures verdict in {TooLarge, Conflict, Full} ==>
                pubs == old(pubs) && table == old(table) && disk.fs == old(disk.fs) && history == old(history)
      ensures verdict in {Published, Deferred, Stopped} ==>
                history == old(history)[id := files] && id in pubs && pubs[id] == Pub(Digested(files), verdict.Published?)
      ensures forall other :: other in old(pubs) ==>
                other in pubs && pubs[other].digest == old(pubs)[other].digest && (old(pubs)[other].done ==> pubs[other].done)
      ensures verdict in {Published, Deferred, Stopped} && !(id in old(pubs) && old(pubs)[id].done) ==>
                Replayed(old(disk.fs), id, files, budget, disk.fs, verdict)
      ensures ClashFree(history) && verdict.Published? ==> id in history && Whole(history, disk.fs, id, |history[id]|)
      ensures ClashFree(history) && verdict.Deferred? ==> id in history && Hindered(history, old(disk.fs), id, |history[id]|)
      ensures ClashFree(history) && verdict.Published? && !(id in old(pubs) && old(pubs)[id].done) ==> Fits(files, |files|)
      ensures verdict.Stopped? ==> budget < StepsForAll(id, files)
      ensures id in old(pubs) && old(pubs)[id].done && !verdict.TooLarge? && !verdict.Conflict? ==>
                verdict == Published && disk.fs == old(disk.fs) && pubs == old(pubs) && table == old(table)
    {
      hide *;
      if !Admits(limits, length, files) { return TooLarge; }
      Parts();
      var digest := Digested(files);
      if id in pubs {
        TableFacts(id);
        if pubs[id].digest != digest { return Conflict; }
        DigestDetermines(history[id], files);
        assert history == history[id := files];
        if pubs[id].done {
          DoneIsWhole(id);
          return Published;
        }
      } else {
        if |pubs| >= limits.maxPublications { return Full; }
        if Pending(length, table) + Bytes(length, files) > limits.maxPendingBytes { return Full; }
        Record(id, files);
      }
      verdict := Replay(id, budget);
    }

    lemma DoneIsWhole(id: Id)
      requires Valid() && id in pubs && pubs[id].done
      ensures id in history && (ClashFree(history) ==> Whole(history, disk.fs, id, |history[id]|))
    {
      hide DiskOk, Whole, GoodHistory, Digested, Admits, ClashFree, Tree;
      assert IsDone(pubs, id);
    }

    /** One transaction: the identity with its digest, and every body. */
    method Record(id: Id, files: seq<File>)
      requires Valid() && id !in pubs && Proper(id.key, files) && Admits(limits, length, files)
      requires |pubs| < limits.maxPublications && Pending(length, table) + Bytes(length, files) <= limits.maxPendingBytes
      modifies this`pubs, this`table, this`history
      ensures Valid()
      ensures pubs == old(pubs)[id := Pub(Digested(files), false)] && history == old(history)[id := files]
    {
      hide *;
      Parts();
      GoodMore(history, id, files);
      if ClashFree(history[id := files]) { JournalKeepsFine(pubs, history, disk.fs, id, files); }
      JournalGrows(limits, length, pubs, table, known, history, id, files);
      pubs := pubs[id := Pub(Digested(files), false)];
      table := table + Tagged(id, files);
      history := history[id := files];
      Rest();
    }
  }

  lemma NoItems(fs: Fs, items: seq<Item>, budget: nat)
    requires AllBelow(items)
    ensures Ran(fs, PassWalk(fs, items[..0]), budget, fs, Installed, budget)
  {
  }

  /** One file further in a replay, or the end of it. */
  lemma PassOn(fs: Fs, items: seq<Item>, k: nat, budget: nat, a: Fs, more: nat, fs': Fs, outcome: Outcome, left: nat)
    requires AllBelow(items) && k < |items| && Tree(fs) && Tree(a)
    requires Ran(fs, PassWalk(fs, items[..k]), budget, a, Installed, more)
    requires Ran(a, DeliverWalk(a, items[k]), more, fs', outcome, left)
    ensures Tree(fs') && Ran(fs, PassWalk(fs, items[..k + 1]), budget, fs', outcome, left)
    ensures !outcome.Installed? ==> Ran(fs, PassWalk(fs, items), budget, fs', outcome, left)
  {
    hide PassWalk, DeliverWalk, Tree;
    PassFacts(fs, items, k);
    PassFacts(fs, items, k + 1);
    PassMore(fs, items, k);
    RanThen(fs, PassWalk(fs, items[..k]), DeliverWalk(a, items[k]), budget, a, more, fs', outcome, left);
    TreeAt(fs, PassWalk(fs, items[..k + 1]), budget);
    PassStops(fs, items, k + 1);
  }

  /** After a replay, interrupted or not. */
  lemma AfterPass(pubs: map<Id, Pub>, history: History, fs: Fs, id: Id, budget: nat, fs': Fs, outcome: Outcome, left: nat)
    requires GoodHistory(history) && id in history && !IsDone(pubs, id) && Tree(fs)
    requires ClashFree(history) ==> Fine(pubs, history, fs)
    requires AllBelow(Items(id, history[id])) && Ran(fs, PassWalk(fs, Items(id, history[id])), budget, fs', outcome, left)
    ensures Tree(fs') && (ClashFree(history) ==> Fine(pubs, history, fs'))
    ensures ClashFree(history) && outcome.Installed? ==> Whole(history, fs', id, |history[id]|) && Fits(history[id], |history[id]|)
    ensures ClashFree(history) && outcome !in {Installed, Died} ==> Hindered(history, fs, id, |history[id]|)
    ensures Replayed(fs, id, history[id], budget, fs', if outcome.Died? then Stopped else if !outcome.Installed? then Deferred else if left == 0 then Stopped else Published)
    ensures outcome.Died? || left == 0 ==> budget < StepsForAll(id, history[id])
  {
    hide Tree, Fine, Whole, Hindered, PassWalk, Items, GoodHistory, ClashFree, Proper, Fits;
    ProperOf(history, id);
    ReplayTrees(fs, id, history[id]);
    TreeAt(fs, PassWalk(fs, Items(id, history[id])), budget);
    if ClashFree(history) {
      PassKeeps(pubs, history, fs, id, |history[id]|);
      ItemsLength(id, history[id]);
      assert Items(id, history[id])[..|history[id]|] == Items(id, history[id]);
    }
  }

  lemma NotDone(pubs: map<Id, Pub>, id: Id)
    requires id in pubs && !pubs[id].done
    ensures !IsDone(pubs, id)
  {
  }

  lemma ItemsLength(id: Id, files: seq<File>)
    ensures |Items(id, files)| == |files|
  {
  }

  lemma JournalEnds(limits: Limits, length: Blob -> nat, pubs: map<Id, Pub>, table: seq<Row>, known: set<Known>, history: History, id: Id)
    requires JournalOk(limits, length, pubs, table, known, history) && id in pubs
    ensures JournalOk(limits, length, pubs[id := pubs[id].(done := true)], Without(table, id), known, history)
    ensures forall other :: RowsOf(Without(table, id), other) == if other == id then [] else RowsOf(table, other)
  {
    hide RowsOf, Admits, Digested, Without, Pending, Bytes;
    var pubs', table' := pubs[id := pubs[id].(done := true)], Without(table, id);
    forall other {:trigger RowsOf(table', other)}
      ensures RowsOf(table', other) == if other == id then [] else RowsOf(table, other)
    {
      WithoutFacts(length, table, id, other);
    }
    WithoutFacts(length, table, id, id);
    assert pubs'.Keys == pubs.Keys;
    assert |pubs'| == |pubs'.Keys|;
  }

  lemma DoneGrows(pubs: map<Id, Pub>, history: History, fs: Fs, id: Id)
    requires Fine(pubs, history, fs) && id in pubs && id in history && Whole(history, fs, id, |history[id]|)
    ensures Fine(pubs[id := pubs[id].(done := true)], history, fs)
  {
    hide Whole, DiskOk;
    var pubs' := pubs[id := pubs[id].(done := true)];
    forall id' {:trigger IsDone(pubs', id')} | IsDone(pubs', id') && id' in history ensures Whole(history, fs, id', |history[id']|) {
      assert id' != id ==> IsDone(pubs, id');
    }
  }

  lemma JournalGrows(limits: Limits, length: Blob -> nat, pubs: map<Id, Pub>, table: seq<Row>, known: set<Known>, history: History, id: Id, files: seq<File>)
    requires JournalOk(limits, length, pubs, table, known, history) && id !in pubs && Admits(limits, length, files)
    requires |pubs| < limits.maxPublications && Pending(length, table) + Bytes(length, files) <= limits.maxPendingBytes
    ensures JournalOk(limits, length, pubs[id := Pub(Digested(files), false)], table + Tagged(id, files), known, history[id := files])
  {
    hide RowsOf, Admits, Digested, Tagged, Pending, Bytes;
    var pubs', table' := pubs[id := Pub(Digested(files), false)], table + Tagged(id, files);
    AppendTagged(length, table, id, files, id);
    forall other {:trigger RowsOf(table', other)}
      ensures RowsOf(table', other) == if other in pubs' && !pubs'[other].done then history[id := files][other] else []
    {
      AppendTagged(length, table, id, files, other);
      assert RowsOf(table, other) == if other in pubs && !pubs[other].done then history[other] else [];
    }
    assert pubs'.Keys == pubs.Keys + {id};
  }

  lemma NothingAdmitted(limits: Limits, length: Blob -> nat)
    ensures !Admits(limits, length, [])
  {
  }

  /** A new publication is not done, and the others are as they were. */
  lemma JournalKeepsFine(pubs: map<Id, Pub>, history: History, fs: Fs, id: Id, files: seq<File>)
    requires GoodHistory(history) && ClashFree(history[id := files]) && id !in history && Proper(id.key, files)
    requires ClashFree(history) ==> Fine(pubs, history, fs)
    ensures forall digest :: Fine(pubs[id := Pub(digest, false)], history[id := files], fs)
  {
    hide DiskOk, Whole, GoodHistory, ClashFree, Proper;
    FewerClashes(history, id, files);
    JournalKeepsDisk(history, fs, id, files);
    var history' := history[id := files];
    forall digest ensures Fine(pubs[id := Pub(digest, false)], history', fs) {
      var pubs' := pubs[id := Pub(digest, false)];
      forall id' {:trigger IsDone(pubs', id')} | IsDone(pubs', id') && id' in history' ensures Whole(history', fs, id', |history'[id']|) {
        assert IsDone(pubs, id');
        WholeSame(history, id, files, fs, id');
      }
    }
  }

  lemma WholeSame(history: History, id: Id, files: seq<File>, fs: Fs, id': Id)
    requires id' in history && id' != id && Whole(history, fs, id', |history[id']|)
    ensures Whole(history[id := files], fs, id', |history[id']|)
  {
    hide Durable, Possible;
    var history' := history[id := files];
    forall j: nat {:trigger DurableAt(history', fs, id', j)} | j < |history[id']| ensures DurableAt(history', fs, id', j) {
      assert DurableAt(history, fs, id', j);
    }
    forall j: nat {:trigger StagingOf(history', id', j)} | j < |history[id']| ensures !Possible(fs, StagingOf(history', id', j)) {
      assert StagingOf(history', id', j) == StagingOf(history, id', j);
    }
  }
}

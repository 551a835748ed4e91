/** Names that clash: a file whose name is the staging name of another one. Nothing in the
    relay's checks refuses such a publication, and the relay then loses files it had
    delivered and verified. */
module Clash {
  import opened Wrappers
  import opened Wire
  import opened Disk
  import opened Install
  import opened Delivery
  import opened Relay

  // ------------------------------------------------------------ disks between two deliveries

  /** Different paths, none of them above another, and no staging name above one. */
  ghost predicate Apart(items: seq<Item>) {
    && AllBelow(items)
    && forall i, j {:trigger items[i], items[j]} :: 0 <= i < |items| && 0 <= j < |items| ==>
         && (i != j ==> items[i].path != items[j].path)
         && !(items[i].path < items[j].path) && !(StageOf(items[i].path, items[i].body) < items[j].path)
  }

  ghost predicate FileOf(fs: Fs, items: seq<Item>, p: Path) {
    exists k {:trigger items[k]} :: 0 <= k < |items| && p == items[k].path && Reads(fs, p, items[k].body)
  }

  ghost predicate AboveOne(items: seq<Item>, p: Path) {
    exists k {:trigger items[k]} :: 0 <= k < |items| && p < items[k].path
  }

  /** Every file is one of these, complete and with one link, and every directory is above
      one of them. */
  ghost predicate Flat(fs: Fs, items: seq<Item>) {
    && Tree(fs)
    && (forall p {:trigger IsFile(fs, p)} :: IsFile(fs, p) ==> FileOf(fs, items, p))
    && (forall p {:trigger Look(fs, p)} :: Look(fs, p) == Some(Directory) ==> AboveOne(items, p))
  }

  /** A file that stays where it is keeps its bytes and its one link. */
  lemma ReadsStays(a: Fs, e: Fs, path: Path, stage: Path, q: Path, body: Blob)
    requires Tree(a) && Reads(a, q, body) && Look(e, q) == Look(a, q) && Look(e, stage).None?
    requires Look(a, path).Some? ==> Look(e, path) == Look(a, path)
    requires Look(a, path).None? && IsFile(e, path) ==> Look(e, path).value.inode !in a.files
    requires forall p {:trigger Look(e, p)} :: p != path && p != stage ==> Look(e, p) == Look(a, p) || !IsFile(e, p)
    requires forall i :: i in a.files ==> i in e.files && e.files[i] == a.files[i]
    ensures Reads(e, q, body)
  {
    var i := Look(a, q).value.inode;
    MayNow(a, q);
    assert i in a.files;
    assert q in Names(a, i) && |Names(a, i) - {q}| == 0;
    forall p ensures p in Names(e, i) <==> p == q {
      assert p in Names(e, i) <==> Look(e, p) == Some(FileAt(i));
      if Look(e, p) == Some(FileAt(i)) {
        assert IsFile(e, p);
        assert Look(a, p) == Look(e, p);
        assert p in Names(a, i) && p !in Names(a, i) - {q};
      }
    }
    assert Names(e, i) == {q};
  }

  /** From such a disk every delivery succeeds, and leads to such a disk. */
  lemma {:induction false} FlatDelivers(fs: Fs, items: seq<Item>, k: nat)
    requires Apart(items) && Flat(fs, items) && k < |items|
    ensures var w := DeliverWalk(fs, items[k]);
            w.outcome.Installed? && Delivered(fs, End(fs, w), items[k].path, items[k].body) && Flat(End(fs, w), items)
  {
    hide InstallWalk, FlushWalk, Tree, Keeps, Apart, Flat, Reads, DeliverWalk, Delivered, Progress, Done;
    FlatParts(fs, items);
    ApartAt(items, k, k);
    var w := DeliverWalk(fs, items[k]);
    FlatInstalls(fs, items, k);
    DeliverDoes(fs, items[k]);
    DeliverFacts(fs, items[k]);
    TreeAt(fs, w, 0);
    StillFlat(fs, End(fs, w), items, k);
  }

  lemma {:induction false} FlatParts(fs: Fs, items: seq<Item>)
    requires Flat(fs, items)
    ensures Tree(fs)
    ensures forall p {:trigger IsFile(fs, p)} :: IsFile(fs, p) ==> FileOf(fs, items, p)
    ensures forall p {:trigger Look(fs, p)} :: Look(fs, p) == Some(Directory) ==> AboveOne(items, p)
  {
  }

  lemma {:induction false} ApartAt(items: seq<Item>, i: nat, j: nat)
    requires Apart(items) && i < |items| && j < |items|
    ensures Below(items[i].path) && Below(items[j].path) && AllBelow(items)
    ensures i != j ==> items[i].path != items[j].path
    ensures !(items[i].path < items[j].path) && !(StageOf(items[i].path, items[i].body) < items[j].path)
  {
  }

  lemma {:induction false} FlatInstalls(fs: Fs, items: seq<Item>, k: nat)
    requires Apart(items) && Flat(fs, items) && k < |items| && Below(items[k].path)
    ensures DeliverWalk(fs, items[k]).outcome.Installed?
  {
    hide InstallWalk, FlushWalk, Tree, Keeps, Apart, Flat, Reads, Single, Released, Stageable, LinkCount;
    var path, body := items[k].path, items[k].body;
    var stage := StageOf(path, body);
    FlatParts(fs, items);
    InstallWalkKeeps(fs, path, body);
    var install := InstallWalk(fs, path, body);
    var at := End(fs, install);
    ProgressParts(fs, at, path, body);
    FlushWalkFacts(at, path);
    StageFacts(path, body);
    if Look(fs, stage).Some? {
      if Look(fs, stage) == Some(Directory) {
        var j :| 0 <= j < |items| && stage < items[j].path;
        ApartAt(items, k, j);
      } else {
        assert IsFile(fs, stage);
        var j :| 0 <= j < |items| && stage == items[j].path && Reads(fs, stage, items[j].body);
        OneLink(fs, stage, items[j].body);
      }
    }
    if install.outcome.Blocked? {
      var n :| 2 <= n < |path| && Look(at, path[..n]).Some? && !HasDir(at, path[..n]);
      PrefixFacts(path, n);
      assert Look(at, path[..n]) == Look(fs, path[..n]);
      assert IsFile(fs, path[..n]);
      var j :| 0 <= j < |items| && path[..n] == items[j].path && Reads(fs, path[..n], items[j].body);
      ApartAt(items, j, k);
    } else if install.outcome.Exists? {
      if Look(fs, path) == Some(Directory) {
        var j :| 0 <= j < |items| && path < items[j].path;
        ApartAt(items, k, j);
      } else {
        assert IsFile(fs, path);
        var j :| 0 <= j < |items| && path == items[j].path && Reads(fs, path, items[j].body);
        ApartAt(items, k, j);
        ReadsStays(fs, at, path, stage, path, body);
      }
    } else {
      NotReads(at, path, body);
    }
  }

  lemma FlushWalkFacts(fs: Fs, path: Path)
    requires Below(path)
    ensures FlushWalk(fs, path, |path| - 1).outcome == Installed
  {
    hide FlushWalk;
    FlushAt(fs, path, |path| - 1, 0);
  }

  lemma OneLink(fs: Fs, p: Path, body: Blob)
    requires Reads(fs, p, body)
    ensures Look(fs, p).Some? && Look(fs, p).value.FileAt? && LinkCount(fs, Look(fs, p).value.inode) == 1
  {
  }

  lemma {:induction false} StillFlat(a: Fs, e: Fs, items: seq<Item>, k: nat)
    requires Apart(items) && Flat(a, items) && k < |items| && Below(items[k].path) && Tree(e)
    requires Delivered(a, e, items[k].path, items[k].body)
    ensures Flat(e, items)
  {
    hide Apart, Reads, Tree;
    var path, body := items[k].path, items[k].body;
    ReadsFacts(e, path, body);
    forall p {:trigger IsFile(e, p)} | IsFile(e, p) ensures FileOf(e, items, p) {
      if p == path {
        assert p == items[k].path && Reads(e, p, items[k].body);
      } else {
        assert Look(e, p) == Look(a, p) && IsFile(a, p);
        var j :| 0 <= j < |items| && p == items[j].path && Reads(a, p, items[j].body);
        ReadsStays(a, e, path, StageOf(path, body), p, items[j].body);
      }
    }
    forall p {:trigger Look(e, p)} | Look(e, p) == Some(Directory) ensures AboveOne(items, p) {
      assert p < items[k].path || Look(a, p) == Some(Directory);
    }
  }

  // ------------------------------------------------------------ which files a pass leaves

  /** From such a disk every replay succeeds. */
  lemma {:induction false} FlatPasses(fs: Fs, items: seq<Item>, k: nat)
    requires Apart(items) && Flat(fs, items) && k <= |items|
    ensures AllBelow(items) && var w := PassWalk(fs, items[..k]); w.outcome.Installed? && Flat(End(fs, w), items)
  {
    hide DeliverWalk, Apart, Flat, Delivered;
    ApartBelow(items);
    BelowUpTo(items);
    if k > 0 {
      FlatPasses(fs, items, k - 1);
      PassMore(fs, items, k - 1);
      var past := PassWalk(fs, items[..k - 1]);
      FlatDelivers(End(fs, past), items, k - 1);
      EndThen(fs, past, DeliverWalk(End(fs, past), items[k - 1]));
    }
  }

  lemma {:induction false} ApartBelow(items: seq<Item>)
    requires Apart(items)
    ensures AllBelow(items)
  {
  }

  /** The disk after the first k deliveries. */
  ghost function After(fs: Fs, items: seq<Item>, k: nat): Fs
    requires AllBelow(items) && k <= |items|
  {
    End(fs, PassWalk(fs, items[..k]))
  }

  lemma {:induction false} AfterMore(fs: Fs, items: seq<Item>, k: nat)
    requires Apart(items) && Flat(fs, items) && k < |items|
    ensures AllBelow(items) && Below(items[k].path) && After(fs, items, 0) == fs
    ensures Delivered(After(fs, items, k), After(fs, items, k + 1), items[k].path, items[k].body)
  {
    hide DeliverWalk, Apart, Flat, Delivered;
    ApartBelow(items);
    BelowUpTo(items);
    FlatPasses(fs, items, k);
    PassMore(fs, items, k);
    var past := PassWalk(fs, items[..k]);
    FlatDelivers(End(fs, past), items, k);
    EndThen(fs, past, DeliverWalk(End(fs, past), items[k]));
  }

  /** A file is there after its delivery, and until a file is installed whose staging name
      it has. */
  lemma {:induction false} StaysThere(fs: Fs, items: seq<Item>, i: nat, n: nat, m: nat)
    requires Apart(items) && Flat(fs, items) && i < |items| && n <= m <= |items| && AllBelow(items)
    requires IsFile(After(fs, items, n), items[i].path)
    requires forall k {:trigger items[k]} :: n <= k < m ==> StageOf(items[k].path, items[k].body) != items[i].path
    ensures IsFile(After(fs, items, m), items[i].path)
    decreases m
  {
    hide After, Apart, Flat, Reads;
    if n < m {
      StaysThere(fs, items, i, n, m - 1);
      AfterMore(fs, items, m - 1);
      ReadsFacts(After(fs, items, m), items[m - 1].path, items[m - 1].body);
      assert StageOf(items[m - 1].path, items[m - 1].body) != items[i].path;
      assert Look(After(fs, items, m), items[i].path).Some?;
    }
  }

  /** A file that is not there does not come back by the delivery of others. */
  lemma {:induction false} StaysAway(fs: Fs, items: seq<Item>, i: nat, n: nat, m: nat)
    requires Apart(items) && Flat(fs, items) && i < |items| && n <= m <= |items| && AllBelow(items) && !(n <= i < m)
    requires !IsFile(After(fs, items, n), items[i].path)
    ensures !IsFile(After(fs, items, m), items[i].path)
    decreases m
  {
    hide After, Apart, Flat, Reads;
    if n < m {
      StaysAway(fs, items, i, n, m - 1);
      AfterMore(fs, items, m - 1);
      ApartAt(items, i, m - 1);
      assert Look(After(fs, items, m), items[i].path).Some? ==> items[i].path != StageOf(items[m - 1].path, items[m - 1].body);
    }
  }

  lemma {:induction false} ThereAfter(fs: Fs, items: seq<Item>, k: nat)
    requires Apart(items) && Flat(fs, items) && k < |items| && AllBelow(items)
    ensures IsFile(After(fs, items, k + 1), items[k].path)
    ensures Look(After(fs, items, k + 1), StageOf(items[k].path, items[k].body)).None?
  {
    hide After, Apart, Flat, Reads;
    AfterMore(fs, items, k);
    ReadsFacts(After(fs, items, k + 1), items[k].path, items[k].body);
  }

  /** Files with a later file's staging name are gone after a complete replay. */
  lemma {:induction false} LostAtOnce(fs: Fs, items: seq<Item>, i: nat, j: nat)
    requires Apart(items) && Flat(fs, items) && i < j < |items| && AllBelow(items)
    requires items[i].path == StageOf(items[j].path, items[j].body)
    ensures IsFile(After(fs, items, |items|), items[|items| - 1].path)
    ensures !IsFile(After(fs, items, |items|), items[i].path)
  {
    hide After, Apart, Flat;
    ThereAfter(fs, items, j);
    StaysAway(fs, items, i, j + 1, |items|);
    ThereAfter(fs, items, |items| - 1);
  }

  /** Files with an earlier file's staging name are gone when a replay is begun again and
      has come to that file; the last file is there all the time. */
  lemma {:induction false} LostOnRetry(fs: Fs, items: seq<Item>, i: nat, j: nat)
    requires Apart(items) && Flat(fs, items) && j < i < |items| - 1 && AllBelow(items)
    requires items[i].path == StageOf(items[j].path, items[j].body)
    requires forall k {:trigger items[k]} :: 0 <= k < |items| ==> StageOf(items[k].path, items[k].body) != items[|items| - 1].path
    ensures var a := After(fs, items, |items|);
            && IsFile(After(a, items, j + 1), items[|items| - 1].path)
            && !IsFile(After(a, items, j + 1), items[i].path)
  {
    hide Apart, Flat, After, IsFile;
    AfterIsFlat(fs, items, |items|);
    var a := After(fs, items, |items|);
    ThereAfter(fs, items, |items| - 1);
    AfterMore(a, items, 0);
    StaysThere(a, items, |items| - 1, 0, j + 1);
    ThereAfter(a, items, j);
    NoFile(After(a, items, j + 1), items[i].path);
  }

  lemma NoFile(fs: Fs, p: Path)
    ensures Look(fs, p).None? ==> !IsFile(fs, p)
  {
  }

  lemma {:induction false} AfterIsFlat(fs: Fs, items: seq<Item>, k: nat)
    requires Apart(items) && Flat(fs, items) && k <= |items| && AllBelow(items)
    ensures Flat(After(fs, items, k), items)
  {
    hide Apart, Flat, DeliverWalk;
    FlatPasses(fs, items, k);
  }

  /** An empty destination. */
  ghost predicate Fresh(fs: Fs) {
    fs.live == map[] && fs.olds == {} && Tree(fs)
  }

  lemma {:induction false} FreshIsFlat(fs: Fs, items: seq<Item>)
    requires Fresh(fs)
    ensures Flat(fs, items) && forall p :: Look(fs, p).None? && !IsFile(fs, p) && !Possible(fs, p)
  {
  }

  /** While a file is staged under the last file's name, an incomplete file is there. */
  lemma {:induction false} TornMarker(fs: Fs, items: seq<Item>, j: nat)
    requires Apart(items) && Fresh(fs) && j < |items| - 1 && AllBelow(items)
    requires items[|items| - 1].path == StageOf(items[j].path, items[j].body)
    ensures exists n: nat :: IsFile(At(fs, PassWalk(fs, items), n), items[|items| - 1].path) && BodyAt(At(fs, PassWalk(fs, items), n), items[|items| - 1].path).None?
  {
    hide Apart, Flat, DeliverWalk, Tree, PassWalk, BodyAt, IsFile, Delivered, At;
    var last := |items| - 1;
    FreshIsFlat(fs, items);
    BelowUpTo(items);
    AfterMore(fs, items, 0);
    StaysAway(fs, items, last, 0, j);
    AfterIsFlat(fs, items, j);
    FlatPasses(fs, items, j);
    var past := PassWalk(fs, items[..j]);
    var a := After(fs, items, j);
    NotThere(a, items, last);
    FlatDelivers(a, items, j);
    FlatParts(a, items);
    var m := TornStep(a, items[j]);
    PassMore(fs, items, j);
    PassStops(fs, items, j + 1);
    var w := DeliverWalk(a, items[j]);
    InTheMiddle(fs, past, w, PassWalk(fs, items), m);
  }

  lemma InTheMiddle(fs: Fs, past: Walk, w: Walk, all: Walk, m: nat)
    requires m < |w.states| && past.states + w.states <= all.states
    ensures At(fs, all, |past.states| + m + 1) == w.states[m]
  {
  }

  lemma {:induction false} NotThere(fs: Fs, items: seq<Item>, k: nat)
    requires Apart(items) && Flat(fs, items) && k < |items| && !IsFile(fs, items[k].path)
    ensures Look(fs, items[k].path).None?
  {
    hide Apart, Reads;
    if Look(fs, items[k].path) == Some(Directory) {
      var j :| 0 <= j < |items| && items[k].path < items[j].path;
      ApartAt(items, k, j);
    }
  }

  /** The step of a delivery that creates the staging file. */
  lemma TornStep(fs: Fs, item: Item) returns (m: nat)
    requires Tree(fs) && Below(item.path) && Look(fs, StageOf(item.path, item.body)).None? && DeliverWalk(fs, item).outcome.Installed?
    ensures var w, stage := DeliverWalk(fs, item), StageOf(item.path, item.body);
            m < |w.states| && IsFile(w.states[m], stage) && BodyAt(w.states[m], stage).None?
  {
    hide Tree, DirWalk, Progress, Keeps, FlushWalk, Reads, LinkWalk, Put;
    var path, body := item.path, item.body;
    var stage := StageOf(path, body);
    NoProgress(fs, path, body);
    StageFacts(path, body);
    DirWalkKeeps(fs, fs, path, body, |path| - 1);
    var dirs := DirWalk(fs, path, |path| - 1);
    var at := End(fs, dirs);
    m := |dirs.states|;
    var install := InstallWalk(fs, path, body);
    assert Look(at, stage).None?;
    assert install.states[m] == Create(at, stage);
    assert DeliverWalk(fs, item).states[m] == Create(at, stage);
    Created(at, stage);
  }

  lemma Created(fs: Fs, p: Path)
    ensures IsFile(Create(fs, p), p) && BodyAt(Create(fs, p), p).None?
  {
  }

  // ------------------------------------------------------------ the exact condition

  /** What a publication's own replays and power losses can lead to. */
  ghost predicate Reached(items: seq<Item>, run: seq<Fs>)
    requires AllBelow(items)
  {
    |run| > 0 &&
    forall n {:trigger run[n]} :: 0 < n < |run| ==>
      PowerLoss(run[n - 1], run[n]) || exists m: nat {:trigger At(run[n - 1], PassWalk(run[n - 1], items), m)} :: run[n] == At(run[n - 1], PassWalk(run[n - 1], items), m)
  }

  /** If the last file is there, then every file is, with its bytes. */
  ghost predicate MarkerWhole(items: seq<Item>, fs: Fs) {
    items != [] && IsFile(fs, items[|items| - 1].path) ==>
      forall k {:trigger items[k]} :: 0 <= k < |items| ==> BodyAt(fs, items[k].path) == Some(items[k].body)
  }

  /** No file lies above another, and no staging name above a file. */
  ghost predicate Spread(files: seq<File>) {
    forall i, j {:trigger files[i], files[j]} :: 0 <= i < |files| && 0 <= j < |files| ==>
      !(files[i].rel < files[j].rel) && (files[i].rel != [] ==> !(StageRel(files[i].rel, files[i].body) < files[j].rel))
  }

  lemma {:induction false} SpreadIsApart(id: Id, files: seq<File>)
    requires Proper(id.key, files) && Spread(files)
    ensures Apart(Items(id, files)) && AllBelow(Items(id, files)) && |Items(id, files)| == |files|
  {
    hide Owns, Abs, StageRel;
    var items := Items(id, files);
    ItemsBelow(id, files);
    forall i, j {:trigger items[i], items[j]} | 0 <= i < |items| && 0 <= j < |items|
      ensures i != j ==> items[i].path != items[j].path
      ensures !(items[i].path < items[j].path) && !(StageOf(items[i].path, items[i].body) < items[j].path)
    {
      assert files[i].rel != files[j].rel || i == j;
      OwnedPath(id, files[i].rel);
      AbsFacts(id, files[i].rel, id, files[j].rel);
      StageOfAbs(id, files[i].rel, files[i].body);
      AbsLess(id, files[i].rel, files[j].rel);
      AbsLess(id, StageRel(files[i].rel, files[i].body), files[j].rel);
    }
  }

  function Alone(id: Id, files: seq<File>): History {
    map[id := files]
  }

  lemma {:induction false} AloneFacts(id: Id, files: seq<File>)
    requires Proper(id.key, files)
    ensures GoodHistory(Alone(id, files)) && id in Alone(id, files) && Alone(id, files)[id] == files
  {
    hide Owns;
  }

  lemma {:induction false} AClash(id: Id, files: seq<File>) returns (i: nat, j: nat)
    requires !ClashFree(Alone(id, files))
    ensures i < |files| && j < |files| && Abs(id, files[i].rel) == StagingOf(Alone(id, files), id, j)
  {
    var history := Alone(id, files);
    var a, k: nat, b, l: nat :| In(history, a, k) && In(history, b, l) && PathOf(history, a, k) == StagingOf(history, b, l);
    i, j := k, l;
  }

  /** Without a clash, whatever is reached keeps the marker last. */
  lemma {:induction false} ClashFreeKeeps(id: Id, files: seq<File>, run: seq<Fs>)
    requires Proper(id.key, files) && AllBelow(Items(id, files)) && ClashFree(Alone(id, files))
    requires Reached(Items(id, files), run) && Fresh(run[0])
    ensures Fine(map[], Alone(id, files), run[|run| - 1])
    decreases |run|
  {
    hide Fine, ClashFree, GoodHistory, PassWalk, Items, Proper, PowerLoss, At;
    var history, items := Alone(id, files), Items(id, files);
    AloneFacts(id, files);
    if |run| == 1 {
      FreshIsFine(id, files, run[0]);
    } else {
      var past := run[..|run| - 1];
      var a, b := run[|run| - 2], run[|run| - 1];
      assert forall n {:trigger past[n]} :: 0 < n < |past| ==> past[n] == run[n] && past[n - 1] == run[n - 1];
      ClashFreeKeeps(id, files, past);
      TreeOfFine(map[], history, a);
      assert run[|run| - 1] == b;
      if PowerLoss(a, b) {
        LossIsNarrow(a, b);
        NarrowsKeepsFine(map[], history, a, b);
      } else {
        var m: nat :| b == At(a, PassWalk(a, items), m);
        PassKeeps(map[], history, a, id, |files|);
        ItemsLength(id, files);
        assert items[..|files|] == items;
        AtFine(history, a, PassWalk(a, items), m);
      }
    }
  }

  lemma AtFine(history: History, fs: Fs, w: Walk, n: nat)
    requires Fine(map[], history, fs) && forall m {:trigger w.states[m]} :: 0 <= m < |w.states| ==> Fine(map[], history, w.states[m])
    ensures Fine(map[], history, At(fs, w, n))
  {
    hide Fine;
  }

  lemma {:induction false} FreshIsFine(id: Id, files: seq<File>, fs: Fs)
    requires Proper(id.key, files) && ClashFree(Alone(id, files)) && Fresh(fs)
    ensures Fine(map[], Alone(id, files), fs)
  {
    hide Proper, ClashFree, Possible;
    FreshIsFlat(fs, []);
    assert DiskOk(map[], fs);
    JournalKeepsDisk(map[], fs, id, files);
    assert (map[])[id := files] == Alone(id, files);
  }

  lemma {:induction false} FineIsWhole(id: Id, files: seq<File>, fs: Fs)
    requires Proper(id.key, files) && Fine(map[], Alone(id, files), fs)
    ensures MarkerWhole(Items(id, files), fs)
  {
    hide Fine, Proper, BodyAt;
    var history, items := Alone(id, files), Items(id, files);
    DiskOfFine(history, fs);
    if items != [] && IsFile(fs, items[|items| - 1].path) {
      var last := |files| - 1;
      assert In(history, id, last) && PathOf(history, id, last) == items[last].path;
      MarkerMeansAll(history, fs, fs, id, last);
      forall k {:trigger items[k]} | 0 <= k < |items| ensures BodyAt(fs, items[k].path) == Some(items[k].body) {
        assert Arrived(history, fs, id, k);
      }
    }
  }

  lemma DiskOfFine(history: History, fs: Fs)
    requires Fine(map[], history, fs)
    ensures DiskOk(history, fs)
  {
  }

  /** With a clash, some run breaks it. */
  lemma {:induction false} ClashBreaks(fs: Fs, items: seq<Item>, i: nat, j: nat) returns (run: seq<Fs>)
    requires Apart(items) && Fresh(fs) && AllBelow(items) && i < |items| && j < |items|
    requires items[i].path == StageOf(items[j].path, items[j].body)
    ensures Reached(items, run) && run[0] == fs && !MarkerWhole(items, run[|run| - 1])
  {
    hide Apart, Flat, PassWalk, After, IsFile, BodyAt, At;
    var last := |items| - 1;
    FreshIsFlat(fs, items);
    ApartAt(items, j, j);
    StageFacts(items[j].path, items[j].body);
    if c: nat :| c < |items| && StageOf(items[c].path, items[c].body) == items[last].path {
      StageFacts(items[c].path, items[c].body);
      TornMarker(fs, items, c);
      var n: nat :| IsFile(At(fs, PassWalk(fs, items), n), items[last].path) && BodyAt(At(fs, PassWalk(fs, items), n), items[last].path).None?;
      run := [fs, At(fs, PassWalk(fs, items), n)];
    } else if i < j {
      LostAtOnce(fs, items, i, j);
      var n := AfterIsReached(fs, items, |items|);
      run := [fs, At(fs, PassWalk(fs, items), n)];
      NoFileNoBody(run[1], items[i].path);
    } else {
      LostOnRetry(fs, items, i, j);
      var a := After(fs, items, |items|);
      AfterIsFlat(fs, items, |items|);
      var n := AfterIsReached(fs, items, |items|);
      var m := AfterIsReached(a, items, j + 1);
      run := [fs, At(fs, PassWalk(fs, items), n), At(a, PassWalk(a, items), m)];
      NoFileNoBody(run[2], items[i].path);
    }
  }

  lemma NoFileNoBody(fs: Fs, p: Path)
    ensures !IsFile(fs, p) ==> BodyAt(fs, p).None?
  {
  }

  lemma {:induction false} AfterIsReached(fs: Fs, items: seq<Item>, k: nat) returns (n: nat)
    requires AllBelow(items) && k <= |items|
    ensures After(fs, items, k) == At(fs, PassWalk(fs, items), n)
  {
    hide PassWalk;
    BelowUpTo(items);
    PassStops(fs, items, k);
    n := |PassWalk(fs, items[..k]).states|;
    assert n > 0 ==> PassWalk(fs, items[..k]).states[n - 1] == PassWalk(fs, items).states[n - 1];
  }

  /** The exact condition, for a publication by itself in an empty destination whose files
      lie beside each other: the marker means all files, at every moment of every run with
      interruptions and power losses, if and only if no file is called by the staging name
      of another. */
  lemma {:induction false} MarkerMeansAllIff(id: Id, files: seq<File>, fs: Fs)
    requires Proper(id.key, files) && files != [] && Spread(files) && Fresh(fs)
    ensures AllBelow(Items(id, files))
    ensures ClashFree(Alone(id, files)) <==>
              forall run {:trigger Reached(Items(id, files), run)} :: Reached(Items(id, files), run) && run[0] == fs ==> MarkerWhole(Items(id, files), run[|run| - 1])
  {
    hide Proper, ClashFree, Spread, Apart, Fresh, PassWalk, MarkerWhole, Fine, Items;
    var history, items := Alone(id, files), Items(id, files);
    SpreadIsApart(id, files);
    AloneFacts(id, files);
    if ClashFree(history) {
      forall run {:trigger Reached(items, run)} | Reached(items, run) && run[0] == fs ensures MarkerWhole(items, run[|run| - 1]) {
        ClashFreeKeeps(id, files, run);
        FineIsWhole(id, files, run[|run| - 1]);
      }
    } else {
      var i, j := AClash(id, files);
      assert In(history, id, j);
      PathFacts(history, id, j);
      ItemsAt(id, files, i);
      ItemsAt(id, files, j);
      var run := ClashBreaks(fs, items, i, j);
    }
  }

  // ------------------------------------------------------------ across publications

  /** The single file of a record. */
  function RecordOf(id: Id, body: Blob): seq<File> {
    [File(Prefix(id.key), body)]
  }

  lemma OneFile(fs: Fs, id: Id, body: Blob)
    requires Owns(id.key, Prefix(id.key))
    ensures var items := Items(id, RecordOf(id, body));
            && Below(Abs(id, Prefix(id.key))) && AllBelow(items) && items == [Item(Abs(id, Prefix(id.key)), body)]
            && PassWalk(fs, items) == DeliverWalk(fs, items[0])
  {
    hide DeliverWalk;
    OwnedPath(id, Prefix(id.key));
    var items := Items(id, RecordOf(id, body));
    var item := Item(Abs(id, Prefix(id.key)), body);
    assert items == [item];
    assert items[..0] == [] && items[..1] == items;
    PassMore(fs, items, 0);
    assert Then(Walk([], Installed), DeliverWalk(fs, item)) == DeliverWalk(fs, item);
  }

  lemma BesideIsApart(a: Item, b: Item)
    requires Below(a.path) && Below(b.path) && |a.path| == |b.path| && a.path != b.path
    ensures Apart([a, b])
  {
    StageFacts(a.path, a.body);
    StageFacts(b.path, b.body);
  }

  /** Any two cancellation records of one target, one of which is called by the staging name
      of the other: both are replayed to the end, in this order, and the first, though done,
      is gone from the destination. */
  lemma CancellationIsLost(a: Id, x: Blob, b: Id, y: Blob, fs: Fs) returns (middle: Fs, end: Fs)
    requires a.key.Cancel? && b.key.Cancel? && a.target == b.target && a.key.name == Stage(b.key.name, Sha(y)) && Fresh(fs)
    ensures Replayed(fs, a, RecordOf(a, x), StepsForAll(a, RecordOf(a, x)), middle, Published)
    ensures Replayed(middle, b, RecordOf(b, y), StepsForAll(b, RecordOf(b, y)), end, Published)
    ensures BodyAt(middle, Abs(a, Prefix(a.key))) == Some(x) && Look(end, Abs(a, Prefix(a.key))).None?
  {
    hide DeliverWalk, PassWalk, Flat, Apart, Tree, StepsFor;
    var p, q := Item(Abs(a, Prefix(a.key)), x), Item(Abs(b, Prefix(b.key)), y);
    OneFile(fs, a, x);
    StageOfAbs(b, Prefix(b.key), y);
    StageFacts(q.path, y);
    assert p.path == StageOf(q.path, y);
    var items := [p, q];
    BesideIsApart(p, q);
    FreshIsFlat(fs, items);
    FlatParts(fs, items);
    FlatDelivers(fs, items, 0);
    DeliverFacts(fs, p);
    middle := End(fs, DeliverWalk(fs, p));
    OneFile(middle, b, y);
    FlatParts(middle, items);
    FlatDelivers(middle, items, 1);
    DeliverFacts(middle, q);
    end := End(middle, DeliverWalk(middle, q));
  }
}

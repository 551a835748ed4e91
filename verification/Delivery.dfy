/** Delivering files to a destination, one after the other: each is installed, read back,
    and made durable with every directory above it before the next is begun. */
module Delivery {
  import opened Wrappers
  import opened Wire
  import opened Disk
  import opened Install

  datatype Item = Item(path: Path, body: Blob)

  ghost predicate AllBelow(items: seq<Item>) {
    forall i {:trigger items[i]} :: 0 <= i < |items| ==> Below(items[i].path)
  }

  lemma BelowUpTo(items: seq<Item>)
    requires AllBelow(items)
    ensures forall k {:trigger items[..k]} :: 0 <= k <= |items| ==> AllBelow(items[..k])
    ensures forall k {:trigger items[k]} :: 0 <= k < |items| ==> Below(items[k].path)
  {
  }

  /** Flushes the directories of a path from one of them up to the root. */
  function FlushWalk(fs: Fs, path: Path, n: nat): Walk
    requires n < |path|
    decreases n
  {
    if n == 0 then Walk([], Installed)
    else Then(Walk([SyncDir(fs, path[..n])], Installed), FlushWalk(SyncDir(fs, path[..n]), path, n - 1))
  }

  /** A regular file with one link and these bytes. */
  predicate Reads(fs: Fs, path: Path, body: Blob) {
    Look(fs, path).Some? && Look(fs, path).value.FileAt? && LinkCount(fs, Look(fs, path).value.inode) == 1 && BodyAt(fs, path) == Some(body)
  }

  /** One file; it is refused if it does not read back as its bytes. */
  function DeliverWalk(fs: Fs, item: Item): Walk
    requires Below(item.path)
  {
    var install := InstallWalk(fs, item.path, item.body);
    var at := End(fs, install);
    if install.outcome !in {Installed, Exists} then install
    else if !Reads(at, item.path, item.body) then Walk(install.states, Refused)
    else Then(install, FlushWalk(at, item.path, |item.path| - 1))
  }

  /** All files in order, stopping at the first that is not delivered. */
  function PassWalk(fs: Fs, items: seq<Item>): Walk
    requires AllBelow(items)
  {
    if items == [] then Walk([], Installed)
    else
      var past := PassWalk(fs, items[..|items| - 1]);
      if !past.outcome.Installed? then past else Then(past, DeliverWalk(End(fs, past), items[|items| - 1]))
  }

  /** The directories from a file's own up to the root's are all flushed. */
  ghost predicate Flushed(fs: Fs, p: Path, n: nat) {
    forall q {:trigger Settled(fs, q)} :: n < |q| <= |p| && Parent(q) == p[..|q| - 1] ==> Settled(fs, q)
  }

  // ------------------------------------------------------------ flushing

  /** The disk after something that only narrows what is possible: a flush of a directory,
      or a power loss. */
  ghost predicate Narrows(fs: Fs, fs': Fs) {
    && Tree(fs')
    && (forall p, e {:trigger May(fs', p, Some(e))} :: May(fs', p, Some(e)) ==> May(fs, p, Some(e)))
    && (forall i :: i in fs.files && fs.files[i].Firm? ==> i in fs'.files && fs'.files[i] == fs.files[i])
    && (forall p, b {:trigger Durable(fs', p, b)} :: Durable(fs, p, b) ==> Durable(fs', p, b))
  }

  lemma NarrowsSelf(fs: Fs)
    requires Tree(fs)
    ensures Narrows(fs, fs)
  {
  }

  lemma NarrowsOn(a: Fs, b: Fs, c: Fs)
    requires Narrows(a, b) && Narrows(b, c)
    ensures Narrows(a, c)
  {
    hide May, Tree, Durable;
  }

  lemma NarrowsTree(a: Fs, b: Fs)
    requires Narrows(a, b)
    ensures Tree(b)
  {
  }

  lemma SyncNarrows(fs: Fs, d: Path)
    requires Tree(fs)
    ensures Narrows(fs, SyncDir(fs, d))
  {
    hide May, Look;
    SyncFacts(fs, d);
  }

  lemma LossIsNarrow(fs: Fs, fs': Fs)
    requires Tree(fs) && PowerLoss(fs, fs')
    ensures Narrows(fs, fs')
  {
    hide May, Look, Tree, Durable;
    LossKeeps(fs, fs');
    LossNarrows(fs, fs');
    forall p, b {:trigger Durable(fs', p, b)} | Durable(fs, p, b) ensures Durable(fs', p, b) {
      DurableSurvives(fs, fs', p, b);
    }
  }

  lemma OwnNarrows(fs: Fs, fs': Fs, p: Path, body: Blob)
    requires Below(p) && Narrows(fs, fs')
    ensures Own(fs, p, body) ==> Own(fs', p, body)
    ensures Stageable(fs, p, body) ==> Stageable(fs', p, body)
  {
    hide May, Tree, Durable;
  }

  /** The same entries and files. */
  ghost predicate SameLook(fs: Fs, fs': Fs) {
    fs'.files == fs.files && forall q {:trigger Look(fs', q)} :: Look(fs', q) == Look(fs, q)
  }

  lemma {:induction false} FlushWalkNarrows(fs: Fs, path: Path, n: nat)
    requires Tree(fs) && n < |path| && Flushed(fs, path, n + 1)
    ensures var w := FlushWalk(fs, path, n);
            && w.outcome == Installed && |w.states| == n
            && (forall m {:trigger w.states[m]} :: 0 <= m < |w.states| ==> Narrows(fs, w.states[m]) && SameLook(fs, w.states[m]))
            && Narrows(fs, End(fs, w)) && SameLook(fs, End(fs, w)) && Flushed(End(fs, w), path, 1)
    decreases n
  {
    hide May, Look, Tree, Durable, Narrows, SyncDir, SameLook;
    if n == 0 {
      NarrowsSelf(fs);
      LooksSame(fs, fs, fs);
    } else {
      var after := SyncDir(fs, path[..n]);
      FlushOne(fs, path, n);
      FlushWalkNarrows(after, path, n - 1);
      var rest := FlushWalk(after, path, n - 1);
      var w := FlushWalk(fs, path, n);
      assert w.states == [after] + rest.states;
      forall m {:trigger w.states[m]} | 0 <= m < |w.states| ensures Narrows(fs, w.states[m]) && SameLook(fs, w.states[m]) {
        if m > 0 {
          assert w.states[m] == rest.states[m - 1];
          NarrowsOn(fs, after, w.states[m]);
          LooksSame(fs, after, w.states[m]);
        }
      }
      EndThen(fs, Walk([after], Installed), rest);
      NarrowsOn(fs, after, End(after, rest));
      LooksSame(fs, after, End(after, rest));
    }
  }

  lemma LooksSame(a: Fs, b: Fs, c: Fs)
    ensures SameLook(a, a)
    ensures SameLook(a, b) && SameLook(b, c) ==> SameLook(a, c)
  {
  }

  lemma FlushOne(fs: Fs, p: Path, n: nat)
    requires Tree(fs) && 1 <= n < |p| && Flushed(fs, p, n + 1)
    ensures Flushed(SyncDir(fs, p[..n]), p, n) && Narrows(fs, SyncDir(fs, p[..n])) && Tree(SyncDir(fs, p[..n]))
    ensures SameLook(fs, SyncDir(fs, p[..n]))
  {
    hide May, Look, Tree, Durable;
    SyncNarrows(fs, p[..n]);
    SyncFacts(fs, p[..n]);
    var after := SyncDir(fs, p[..n]);
    forall q {:trigger Settled(after, q)} | n < |q| <= |p| && Parent(q) == p[..|q| - 1] ensures Settled(after, q) {
      if |q| != n + 1 {
        assert Settled(fs, q);
      }
    }
  }

  lemma FlushNone(fs: Fs, p: Path)
    ensures Flushed(fs, p, |p|)
  {
  }

  /** A complete file below flushed directories is durable. */
  lemma FlushedIsDurable(fs: Fs, p: Path, body: Blob)
    requires Tree(fs) && Below(p) && Own(fs, p, body) && Look(fs, p).Some? && Look(fs, p).value.FileAt? && Flushed(fs, p, 1)
    ensures Durable(fs, p, body)
  {
    MayNow(fs, p);
    var i := Look(fs, p).value.inode;
    assert May(fs, p, Some(FileAt(i))) && Look(fs, p) == Some(FileAt(i));
    assert p[..|p|] == p;
    Above(fs, p, |p|);
    forall n {:trigger p[..n]} | 2 <= n <= |p| ensures Settled(fs, p[..n]) {
      assert Parent(p[..n]) == p[..|p[..n]| - 1];
    }
  }

  lemma {:induction false} Above(fs: Fs, p: Path, n: nat)
    requires Tree(fs) && 1 <= n <= |p| && HasDirOrFile(fs, p[..n])
    ensures forall k {:trigger p[..k]} :: 2 <= k < n ==> Look(fs, p[..k]) == Some(Directory)
    decreases n
  {
    if n > 2 {
      assert Parent(p[..n]) == p[..n - 1];
      assert p[..n] in fs.live;
      assert HasDir(fs, p[..n - 1]);
      Above(fs, p, n - 1);
    }
  }

  predicate HasDirOrFile(fs: Fs, p: Path) {
    |p| == 1 || Look(fs, p).Some?
  }

  /** A staging name that is free in a flushed directory cannot come back. */
  lemma FlushedIsGone(fs: Fs, path: Path, body: Blob)
    requires Below(path) && Flushed(fs, path, 1) && (Look(fs, StageOf(path, body)).None? || Look(fs, StageOf(path, body)) == Some(Directory))
    ensures forall i :: !May(fs, StageOf(path, body), Some(FileAt(i)))
  {
    StageFacts(path, body);
    assert Settled(fs, StageOf(path, body));
  }

  // ------------------------------------------------------------ the procedures

  lemma {:induction false} FlushAt(fs: Fs, path: Path, n: nat, m: nat)
    requires m <= n < |path|
    ensures var w := FlushWalk(fs, path, n);
            && |w.states| == n && w.outcome == Installed
            && (m < n ==> At(fs, w, m + 1) == SyncDir(At(fs, w, m), path[..n - m]))
    decreases n
  {
    hide SyncDir;
    if n > 0 {
      var after := SyncDir(fs, path[..n]);
      var w, rest := FlushWalk(fs, path, n), FlushWalk(after, path, n - 1);
      FlushAt(after, path, n - 1, if m > 0 then m - 1 else 0);
      assert w.states == [after] + rest.states;
      if 0 < m < n {
        assert At(fs, w, m + 1) == At(after, rest, m) && At(fs, w, m) == At(after, rest, m - 1);
      }
    }
  }

  /** Flushes the directories of a path up to its root, the deepest first. */
  method FlushChain(disk: Volume, path: Path, budget: nat) returns (outcome: Outcome, left: nat)
    requires Below(path)
    modifies disk
    ensures Ran(old(disk.fs), FlushWalk(old(disk.fs), path, |path| - 1), budget, disk.fs, outcome, left)
  {
    hide SyncDir, FlushWalk;
    ghost var start, w := disk.fs, FlushWalk(disk.fs, path, |path| - 1);
    FlushAt(start, path, |path| - 1, 0);
    left := budget;
    var n := |path| - 1;
    while n >= 1
      invariant 0 <= n < |path| && left + (|path| - 1 - n) == budget
      invariant disk.fs == At(start, w, |path| - 1 - n)
    {
      if left == 0 { return Died, 0; }
      FlushAt(start, path, |path| - 1, |path| - 1 - n);
      disk.fs := SyncDir(disk.fs, path[..n]);
      left := left - 1;
      n := n - 1;
    }
    return Installed, left;
  }

  /** One file. */
  method DeliverFile(disk: Volume, item: Item, budget: nat) returns (outcome: Outcome, left: nat)
    requires Tree(disk.fs) && Below(item.path)
    modifies disk
    ensures Ran(old(disk.fs), DeliverWalk(old(disk.fs), item), budget, disk.fs, outcome, left)
  {
    hide InstallWalk, FlushWalk, Reads, Progress, Done, Own, Owned, Single, Tree;
    ghost var start, install := disk.fs, InstallWalk(disk.fs, item.path, item.body);
    outcome, left := disk.InstallFile(item.path, item.body, budget);
    NotDied(start, item.path, item.body);
    if outcome !in {Installed, Exists} {
      if budget < |install.states| && install.outcome in {Installed, Exists} && Reads(End(start, install), item.path, item.body) {
        RanDied(start, install, FlushWalk(End(start, install), item.path, |item.path| - 1), budget, disk.fs, outcome, left);
      }
      return;
    }
    ghost var middle, more := disk.fs, left;
    if !Reads(disk.fs, item.path, item.body) { return Refused, left; }
    outcome, left := FlushChain(disk, item.path, left);
    RanThen(start, install, FlushWalk(middle, item.path, |item.path| - 1), budget, middle, more, disk.fs, outcome, left);
  }

  lemma NotDied(fs: Fs, path: Path, body: Blob)
    requires Below(path) && Tree(fs)
    ensures InstallWalk(fs, path, body).outcome != Died
  {
    hide InstallWalk, Progress, Keeps;
    InstallWalkKeeps(fs, path, body);
  }

  /** Every state of the walk is a tree. */
  ghost predicate AllTrees(fs: Fs, w: Walk) {
    Tree(fs) && forall m {:trigger w.states[m]} :: 0 <= m < |w.states| ==> Tree(w.states[m])
  }

  lemma TreeAt(fs: Fs, w: Walk, n: nat)
    requires AllTrees(fs, w)
    ensures Tree(At(fs, w, n)) && Tree(End(fs, w))
  {
    hide Tree;
  }

  lemma TreesThen(fs: Fs, w: Walk, next: Walk)
    requires AllTrees(fs, w) && AllTrees(End(fs, w), next)
    ensures AllTrees(fs, Then(w, next))
  {
    hide Tree;
    forall m {:trigger Then(w, next).states[m]} | 0 <= m < |Then(w, next).states| ensures Tree(Then(w, next).states[m]) {
      assert m < |w.states| ==> Then(w, next).states[m] == w.states[m];
      assert m >= |w.states| ==> Then(w, next).states[m] == next.states[m - |w.states|];
    }
  }

  /** Enough steps for one file: its directories, the install, the barriers. */
  function StepsFor(item: Item): nat {
    3 * |item.path| + 4
  }

  function Steps(items: seq<Item>): nat {
    if items == [] then 0 else Steps(items[..|items| - 1]) + StepsFor(items[|items| - 1])
  }

  lemma DeliverFacts(fs: Fs, item: Item)
    requires Tree(fs) && Below(item.path)
    ensures var w := DeliverWalk(fs, item);
            AllTrees(fs, w) && w.outcome != Died && |w.states| <= StepsFor(item)
  {
    hide InstallWalk, FlushWalk, Progress, Done, Reads, Tree, Narrows, Flushed, SameLook;
    var path := item.path;
    var install := InstallWalk(fs, path, item.body);
    var at := End(fs, install);
    InstallWalkKeeps(fs, path, item.body);
    KeepsTrees(fs, install, path, item.body);
    TreeAt(fs, install, 0);
    NotDied(fs, path, item.body);
    if install.outcome in {Installed, Exists} && Reads(at, path, item.body) {
      FlushNone(at, path);
      FlushWalkNarrows(at, path, |path| - 1);
      var flush := FlushWalk(at, path, |path| - 1);
      forall m {:trigger flush.states[m]} | 0 <= m < |flush.states| ensures Tree(flush.states[m]) {
        NarrowsTree(at, flush.states[m]);
      }
      TreesThen(fs, install, flush);
    }
  }

  lemma KeepsTrees(fs: Fs, w: Walk, path: Path, body: Blob)
    requires Below(path) && Tree(fs) && Keeps(fs, w, path, body)
    ensures AllTrees(fs, w)
  {
    hide Tree, Around, Guarded, Staged, Stageable;
  }

  /** What a delivery does: the destination reads as its bytes, a file that was there is
      still the one there, the staging name is free, and elsewhere only directories above
      the destination are new. */
  ghost predicate Delivered(a: Fs, e: Fs, path: Path, body: Blob)
    requires Below(path)
  {
    && Reads(e, path, body) && Look(e, StageOf(path, body)).None?
    && (Look(a, path).Some? ==> Look(e, path) == Look(a, path))
    && (Look(a, path).None? ==> Look(e, path).Some? && NewAt(a, e, body, Look(e, path).value))
    && (forall q {:trigger Look(e, q)} :: q != path && q != StageOf(path, body) ==>
          Look(e, q) == Look(a, q) || (Look(a, q).None? && Look(e, q) == Some(Directory) && q < path))
    && (forall i :: i in a.files ==> i in e.files && e.files[i] == a.files[i])
  }

  lemma DeliverDoes(fs: Fs, item: Item)
    requires Tree(fs) && Below(item.path)
    ensures var w := DeliverWalk(fs, item);
            && (w.outcome.Installed? ==> Delivered(fs, End(fs, w), item.path, item.body))
            && (Look(fs, StageOf(item.path, item.body)) == Some(Directory) ==> !w.outcome.Installed?)
  {
    hide InstallWalk, FlushWalk, Tree, Narrows, Flushed, Reads, Stageable, Single, Keeps, LinkCount, InTheWay;
    var path, body := item.path, item.body;
    var install := InstallWalk(fs, path, body);
    var at := End(fs, install);
    InstallWalkKeeps(fs, path, body);
    if install.outcome in {Installed, Exists} && Reads(at, path, body) {
      FlushNone(at, path);
      ProgressParts(fs, at, path, body);
      FlushWalkNarrows(at, path, |path| - 1);
      var flush := FlushWalk(at, path, |path| - 1);
      EndThen(fs, install, flush);
      SameReads(at, End(at, flush), path, body);
      assert Look(at, StageOf(path, body)).None?;
      assert Look(at, path).Some? by { ReadsFacts(at, path, body); }
    }
  }

  lemma ReadsFacts(fs: Fs, path: Path, body: Blob)
    requires Reads(fs, path, body)
    ensures Look(fs, path).Some? && Look(fs, path).value.FileAt?
  {
  }

  lemma SameReads(a: Fs, b: Fs, path: Path, body: Blob)
    requires SameLook(a, b)
    ensures Reads(b, path, body) == Reads(a, path, body)
  {
    forall i ensures Names(b, i) == Names(a, i) {
      forall p ensures p in Names(b, i) <==> p in Names(a, i) {
        assert p in Names(b, i) <==> Look(b, p) == Some(FileAt(i));
        assert p in Names(a, i) <==> Look(a, p) == Some(FileAt(i));
      }
    }
  }

  lemma {:induction false} PassFacts(fs: Fs, items: seq<Item>, k: nat)
    requires Tree(fs) && AllBelow(items) && k <= |items|
    ensures var w := PassWalk(fs, items[..k]);
            AllTrees(fs, w) && w.outcome != Died && |w.states| <= Steps(items[..k])
  {
    hide DeliverWalk, Tree, StepsFor;
    if k > 0 {
      PassFacts(fs, items, k - 1);
      PassMore(fs, items, k - 1);
      var past := PassWalk(fs, items[..k - 1]);
      assert items[..k][..k - 1] == items[..k - 1] && items[..k][k - 1] == items[k - 1];
      if past.outcome.Installed? {
        TreeAt(fs, past, 0);
        DeliverFacts(End(fs, past), items[k - 1]);
        TreesThen(fs, past, DeliverWalk(End(fs, past), items[k - 1]));
      }
    }
  }

  lemma PassMore(fs: Fs, items: seq<Item>, k: nat)
    requires k < |items| && AllBelow(items)
    ensures var past := PassWalk(fs, items[..k]);
            PassWalk(fs, items[..k + 1]) == if !past.outcome.Installed? then past else Then(past, DeliverWalk(End(fs, past), items[k]))
    ensures PassWalk(fs, items[..0]) == Walk([], Installed)
  {
    hide DeliverWalk;
    assert items[..k + 1][..k] == items[..k];
  }

  /** Once a file is not delivered, the rest is not begun. */
  lemma {:induction false} PassStops(fs: Fs, items: seq<Item>, k: nat)
    requires k <= |items| && AllBelow(items)
    ensures !PassWalk(fs, items[..k]).outcome.Installed? ==> PassWalk(fs, items) == PassWalk(fs, items[..k])
    ensures PassWalk(fs, items[..k]).states <= PassWalk(fs, items).states
    decreases |items| - k
  {
    hide DeliverWalk;
    if k == |items| {
      assert items[..k] == items;
    } else {
      PassStops(fs, items, k + 1);
      PassMore(fs, items, k);
    }
  }
}

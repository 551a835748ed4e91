/** Publishing one file: atomic, never replacing, and recoverable from an interruption at
    any step. The procedure is a walk: the disk after each of its steps. A `budget` counts
    the steps the process lives for, so a contract about a process that died speaks of the
    disk after each single step. */
module Install {
  import opened Wrappers
  import opened Wire
  import opened Disk

  datatype Outcome =
    | Installed
    | Exists       // the destination was there; it is untouched
    | Blocked      // something above the destination is not a directory
    | Refused      // staging state that this protocol does not leave behind
    | Died

  /** A path below a root. */
  predicate Below(p: Path) {
    |p| > 1
  }

  /** The staging name of a destination and its bytes. */
  function StageOf(path: Path, body: Blob): Path
    requires Below(path)
  {
    Parent(path) + [Stage(path[|path| - 1], Sha(body))]
  }

  lemma StageFacts(path: Path, body: Blob)
    requires Below(path)
    ensures StageOf(path, body) != path && Below(StageOf(path, body)) && |StageOf(path, body)| == |path|
    ensures Parent(StageOf(path, body)) == Parent(path) == path[..|path| - 1]
  {
    var last := path[|path| - 1];
    assert last < Stage(last, Sha(body));
    assert StageOf(path, body)[|path| - 1] == Stage(last, Sha(body));
  }

  /** Different destinations, or different bytes, have different staging names. */
  lemma StageInjective(p: Path, b: Blob, q: Path, c: Blob)
    requires Below(p) && Below(q) && StageOf(p, b) == StageOf(q, c)
    ensures p == q && b == c
  {
    StageFacts(p, b);
    StageFacts(q, c);
    assert StageOf(p, b)[|p| - 1] == StageOf(q, c)[|q| - 1];
    assert p == Parent(p) + [p[|p| - 1]] && q == Parent(q) + [q[|q| - 1]];
  }

  lemma PrefixFacts(path: Path, n: nat)
    requires Below(path) && 2 <= n < |path|
    ensures path[..n] < path && |path[..n]| == n && forall body :: path[..n] != StageOf(path, body)
  {
  }

  // ------------------------------------------------------------ what an install may do

  /** Everything but the destination and its staging name is as before, except for new
      directories above the destination. */
  ghost predicate Around(fs: Fs, fs': Fs, path: Path, stage: Path) {
    && (forall i :: i in fs.files ==> i in fs'.files && fs'.files[i] == fs.files[i])
    && (forall p, e {:trigger May(fs', p, e)} :: p != path && p != stage && May(fs', p, e) ==>
          May(fs, p, e) || (e == Some(Directory) && Look(fs, p).None? && p < path))
    && (forall p {:trigger Look(fs', p)} :: p != path && p != stage ==>
          Look(fs', p) == Look(fs, p) || (Look(fs, p).None? && Look(fs', p) == Some(Directory) && p < path))
  }

  /** The destination is never replaced, and whatever may newly be found there, at any
      time, is a new file with the complete flushed bytes. */
  ghost predicate NewAt(fs: Fs, fs': Fs, body: Blob, e: Entry) {
    e.FileAt? && e.inode !in fs.files && e.inode in fs'.files && fs'.files[e.inode] == Firm(body)
  }

  ghost predicate Guarded(fs: Fs, fs': Fs, path: Path, body: Blob) {
    && (Look(fs, path).Some? ==>
          Look(fs', path) == Look(fs, path) && forall e {:trigger May(fs', path, e)} :: May(fs', path, e) ==> May(fs, path, e))
    && (forall e {:trigger May(fs', path, Some(e))} :: May(fs', path, Some(e)) ==> May(fs, path, Some(e)) || NewAt(fs, fs', body, e))
    && (Look(fs, path).None? && Look(fs', path).Some? ==> NewAt(fs, fs', body, Look(fs', path).value))
  }

  /** Nothing but a new file comes under the staging name, and a directory there is left
      alone. */
  ghost predicate Staged(fs: Fs, fs': Fs, stage: Path) {
    && (Look(fs, stage) == Some(Directory) ==>
          Look(fs', stage) == Look(fs, stage) && forall e {:trigger May(fs', stage, e)} :: May(fs', stage, e) ==> May(fs, stage, e))
    && (forall e {:trigger May(fs', stage, Some(e))} :: May(fs', stage, Some(e)) ==>
          May(fs, stage, Some(e)) || (e.FileAt? && e.inode !in fs.files))
    && (Look(fs', stage) == Some(Directory) ==> Look(fs, stage) == Some(Directory))
  }

  /** A file that may be under the staging name has at most the destination as another
      name, and then the complete flushed bytes. */
  ghost predicate Stageable(fs: Fs, path: Path, body: Blob)
    requires Below(path)
  {
    forall i, n {:trigger May(fs, StageOf(path, body), Some(FileAt(i))), May(fs, n, Some(FileAt(i)))} ::
      May(fs, StageOf(path, body), Some(FileAt(i))) && May(fs, n, Some(FileAt(i))) && n != StageOf(path, body) ==>
        n == path && i in fs.files && fs.files[i] == Firm(body)
  }

  ghost predicate Progress(fs: Fs, fs': Fs, path: Path, body: Blob)
    requires Below(path)
  {
    && Tree(fs')
    && Around(fs, fs', path, StageOf(path, body))
    && Guarded(fs, fs', path, body)
    && Staged(fs, fs', StageOf(path, body))
    && (Stageable(fs, path, body) ==> Stageable(fs', path, body))
  }

  /** Only the staging name may ever have led to this new file. */
  ghost predicate Private(fs: Fs, stage: Path, i: nat) {
    forall p {:trigger May(fs, p, Some(FileAt(i)))} :: May(fs, p, Some(FileAt(i))) ==> p == stage
  }

  lemma NoProgress(fs: Fs, path: Path, body: Blob)
    requires Below(path) && Tree(fs)
    ensures Progress(fs, fs, path, body)
  {
  }

  /** A change of the live entries of Tree shape. */
  lemma TreePut(fs: Fs, p: Path, x: Option<Entry>)
    requires Tree(fs)
    requires x.Some? ==> |p| > 1 && HasDir(fs, Parent(p)) && (x.value.FileAt? ==> x.value.inode in fs.files)
    requires Look(fs, p) != Some(Directory)
    ensures Tree(Put(fs, p, x))
  {
    PutFacts(fs, p, x);
    var after := Put(fs, p, x);
    forall q {:trigger q in after.live} | q in after.live ensures |q| > 1 && HasDir(after, Parent(q)) {
      assert q != p ==> q in fs.live;
      assert Look(after, Parent(q)) == if Parent(q) == p then x else Look(fs, Parent(q));
    }
  }

  lemma MakeDirStep(fs: Fs, now: Fs, path: Path, body: Blob, n: nat)
    requires Below(path) && Progress(fs, now, path, body) && 2 <= n < |path|
    requires Look(now, path[..n]).None? && HasDir(now, path[..n - 1])
    ensures Progress(fs, MakeDir(now, path[..n]), path, body)
  {
    hide May, Look, Put;
    PrefixFacts(path, n);
    PutFacts(now, path[..n], Some(Directory));
    assert Parent(path[..n]) == path[..n - 1];
    TreePut(now, path[..n], Some(Directory));
  }

  lemma SyncStep(fs: Fs, now: Fs, path: Path, body: Blob, d: Path)
    requires Below(path) && Progress(fs, now, path, body)
    ensures Progress(fs, SyncDir(now, d), path, body)
    ensures forall p :: |p| > 0 && Parent(p) == d ==> Settled(SyncDir(now, d), p)
  {
    hide May, Look;
    SyncFacts(now, d);
  }

  lemma UnlinkStep(fs: Fs, now: Fs, path: Path, body: Blob)
    requires Below(path) && Progress(fs, now, path, body)
    requires Look(now, StageOf(path, body)).Some? && Look(now, StageOf(path, body)).value.FileAt?
    ensures Progress(fs, Put(now, StageOf(path, body), None), path, body)
  {
    hide May, Look, Put;
    StageFacts(path, body);
    PutFacts(now, StageOf(path, body), None);
    TreePut(now, StageOf(path, body), None);
  }

  lemma CreateIs(fs: Fs, p: Path)
    ensures Create(fs, p) == Put(fs.(files := fs.files[fs.next := Torn], next := fs.next + 1), p, Some(FileAt(fs.next)))
  {
  }

  lemma CreateStep(fs: Fs, now: Fs, path: Path, body: Blob)
    requires Below(path) && Progress(fs, now, path, body)
    requires Look(now, StageOf(path, body)).None? && HasDir(now, Parent(path))
    ensures Progress(fs, Create(now, StageOf(path, body)), path, body)
    ensures Private(Create(now, StageOf(path, body)), StageOf(path, body), now.next)
    ensures now.next !in fs.files
  {
    hide May, Look, Put;
    var stage, i := StageOf(path, body), now.next;
    StageFacts(path, body);
    assert i !in now.files;
    FileFacts(now, now.files[i := Torn], i + 1);
    var known := now.(files := now.files[i := Torn], next := i + 1);
    PutFacts(known, stage, Some(FileAt(i)));
    CreateIs(now, stage);
    assert Tree(known);
    TreePut(known, stage, Some(FileAt(i)));
  }

  lemma WriteStep(fs: Fs, now: Fs, path: Path, body: Blob, i: nat, content: Content)
    requires Below(path) && Progress(fs, now, path, body)
    requires i in now.files && i !in fs.files && Private(now, StageOf(path, body), i)
    ensures Progress(fs, Write(now, i, content), path, body)
    ensures Private(Write(now, i, content), StageOf(path, body), i)
  {
    hide May, Look;
    MayNow(now, path);
    StageFacts(path, body);
    FileFacts(now, now.files[i := content], now.next);
  }

  lemma LinkStep(fs: Fs, now: Fs, path: Path, body: Blob, i: nat)
    requires Below(path) && Progress(fs, now, path, body)
    requires Look(now, StageOf(path, body)) == Some(FileAt(i)) && Look(now, path).None? && HasDir(now, Parent(path))
    requires i !in fs.files && i in now.files && now.files[i] == Firm(body) && Private(now, StageOf(path, body), i)
    ensures Progress(fs, Put(now, path, Some(FileAt(i))), path, body)
  {
    hide May, Look, Put;
    StageFacts(path, body);
    PutFacts(now, path, Some(FileAt(i)));
    TreePut(now, path, Some(FileAt(i)));
  }

  lemma MayNow(fs: Fs, p: Path)
    ensures May(fs, p, Look(fs, p))
  {
  }

  // ------------------------------------------------------------ interrupted installs

  /** Whatever file may be found at the destination has exactly these flushed bytes, and its
      only other name, if any, is the staging name. */
  ghost predicate Own(fs: Fs, path: Path, body: Blob)
    requires Below(path)
  {
    forall i {:trigger May(fs, path, Some(FileAt(i)))} :: May(fs, path, Some(FileAt(i))) ==>
      && i in fs.files && fs.files[i] == Firm(body)
      && forall n {:trigger May(fs, n, Some(FileAt(i)))} :: May(fs, n, Some(FileAt(i))) ==> n == path || n == StageOf(path, body)
  }

  /** And nothing but such a file may be found there. */
  ghost predicate Owned(fs: Fs, path: Path, body: Blob)
    requires Below(path)
  {
    Own(fs, path, body) && !May(fs, path, Some(Directory))
  }

  lemma ProgressKeepsOwn(fs: Fs, fs': Fs, path: Path, body: Blob)
    requires Below(path) && Tree(fs) && Own(fs, path, body) && Progress(fs, fs', path, body)
    ensures Own(fs', path, body) && (Owned(fs, path, body) ==> Owned(fs', path, body))
  {
    hide May;
    forall i {:trigger May(fs', path, Some(FileAt(i)))} | May(fs', path, Some(FileAt(i)))
      ensures i in fs'.files && fs'.files[i] == Firm(body)
      ensures forall n {:trigger May(fs', n, Some(FileAt(i)))} :: May(fs', n, Some(FileAt(i))) ==> n == path || n == StageOf(path, body)
    {
      assert May(fs, path, Some(FileAt(i))) || NewAt(fs, fs', body, FileAt(i));
      forall n | May(fs', n, Some(FileAt(i))) ensures n == path || n == StageOf(path, body) {
        assert n == path || n == StageOf(path, body) || May(fs, n, Some(FileAt(i)));
      }
    }
  }

  /** A power loss only narrows what was possible. */
  lemma LossNarrows(fs: Fs, fs': Fs)
    requires PowerLoss(fs, fs')
    ensures forall p, e {:trigger May(fs', p, Some(e))} :: May(fs', p, Some(e)) ==> May(fs, p, Some(e))
  {
  }

  lemma LossKeeps(fs: Fs, fs': Fs)
    requires PowerLoss(fs, fs') && Tree(fs)
    ensures Tree(fs')
  {
    LossNarrows(fs, fs');
    forall p {:trigger p in fs'.live} | p in fs'.live ensures |p| > 1 && HasDir(fs', Parent(p)) {
      assert Look(fs', p).Some?;
    }
  }

  lemma LossKeepsOwn(fs: Fs, fs': Fs, path: Path, body: Blob)
    requires Below(path) && PowerLoss(fs, fs')
    ensures Own(fs, path, body) ==> Own(fs', path, body)
    ensures Owned(fs, path, body) ==> Owned(fs', path, body)
    ensures Stageable(fs, path, body) ==> Stageable(fs', path, body)
  {
    hide May;
    LossNarrows(fs, fs');
  }

  /** Any number of attempts at one install, each interrupted anywhere, and power losses. */
  ghost predicate Attempts(path: Path, body: Blob, run: seq<Fs>)
    requires Below(path)
  {
    |run| > 0 &&
    if |run| == 1 then Tree(run[0]) && Stageable(run[0], path, body)
    else
      && Attempts(path, body, run[..|run| - 1])
      && (Progress(run[|run| - 2], run[|run| - 1], path, body) || PowerLoss(run[|run| - 2], run[|run| - 1]))
  }

  /** Throughout, the next attempt starts from a disk it can recover; and if the
      destination was free at first, then whatever is visible there, at any moment, is a
      file with the complete bytes. */
  lemma {:induction false} AttemptsRecover(path: Path, body: Blob, run: seq<Fs>)
    requires Below(path) && Attempts(path, body, run)
    ensures Tree(run[|run| - 1]) && Stageable(run[|run| - 1], path, body)
    ensures Own(run[0], path, body) ==> Own(run[|run| - 1], path, body)
    ensures Owned(run[0], path, body) ==> Owned(run[|run| - 1], path, body)
    decreases |run|
  {
    assert forall fs :: Owned(fs, path, body) ==> Own(fs, path, body);
    hide Tree, Stageable, Own, Owned, Progress, PowerLoss;
    if |run| > 1 {
      var past, last := run[..|run| - 1], run[|run| - 1];
      AttemptsRecover(path, body, past);
      var before := past[|past| - 1];
      if Progress(before, last, path, body) {
        ProgressParts(before, last, path, body);
        if Own(before, path, body) { ProgressKeepsOwn(before, last, path, body); }
      } else {
        LossKeeps(before, last);
        LossKeepsOwn(before, last, path, body);
      }
    }
  }

  lemma ProgressParts(start: Fs, fs: Fs, path: Path, body: Blob)
    requires Below(path) && Progress(start, fs, path, body)
    ensures Tree(fs) && (Stageable(start, path, body) ==> Stageable(fs, path, body))
    ensures Around(start, fs, path, StageOf(path, body)) && Guarded(start, fs, path, body) && Staged(start, fs, StageOf(path, body))
  {
  }

  /** An owned destination, once its staging name is gone, reads as the bytes and has
      exactly one link. */
  lemma OwnReads(fs: Fs, path: Path, body: Blob)
    requires Below(path) && Own(fs, path, body) && (Look(fs, StageOf(path, body)).None? || Look(fs, StageOf(path, body)) == Some(Directory))
    requires Look(fs, path).Some? && Look(fs, path).value.FileAt?
    ensures BodyAt(fs, path) == Some(body)
    ensures LinkCount(fs, Look(fs, path).value.inode) == 1
  {
    MayNow(fs, path);
    var i := Look(fs, path).value.inode;
    forall n | n in Names(fs, i) ensures n == path {
      assert May(fs, n, Some(FileAt(i)));
    }
    assert Names(fs, i) == {path};
  }

  /** The names of a staged file: the staging name and perhaps its destination. */
  lemma StagedNames(fs: Fs, path: Path, body: Blob, i: nat)
    requires Below(path) && Stageable(fs, path, body) && Look(fs, StageOf(path, body)) == Some(FileAt(i))
    ensures LinkCount(fs, i) == if Look(fs, path) == Some(FileAt(i)) then 2 else 1
    ensures LinkCount(fs, i) == 2 ==> i in fs.files && fs.files[i] == Firm(body)
  {
    var stage := StageOf(path, body);
    StageFacts(path, body);
    forall n | n in Names(fs, i) ensures n in {stage, path} {
      assert May(fs, n, Some(FileAt(i))) && May(fs, stage, Some(FileAt(i)));
    }
    if Look(fs, path) == Some(FileAt(i)) {
      assert May(fs, path, Some(FileAt(i))) && May(fs, stage, Some(FileAt(i)));
      assert Names(fs, i) == {stage, path};
    } else {
      assert Names(fs, i) == {stage};
    }
  }

  /** Something above the destination is not a directory. */
  ghost predicate InTheWay(fs: Fs, path: Path) {
    exists k {:trigger path[..k]} :: 2 <= k < |path| && Look(fs, path[..k]).Some? && !HasDir(fs, path[..k])
  }

  // ------------------------------------------------------------ walks

  /** The disk after each step of a procedure, and how the procedure ends. */
  datatype Walk = Walk(states: seq<Fs>, outcome: Outcome)

  function End(fs: Fs, w: Walk): Fs {
    if w.states == [] then fs else w.states[|w.states| - 1]
  }

  function Min(a: nat, b: nat): nat {
    if a <= b then a else b
  }

  /** The disk after the first n steps, or after all. */
  function At(fs: Fs, w: Walk, n: nat): Fs {
    if n == 0 || w.states == [] then fs else w.states[Min(n, |w.states|) - 1]
  }

  function Then(w: Walk, next: Walk): Walk {
    Walk(w.states + next.states, next.outcome)
  }

  /** What a process does that walks w and lives for the given number of steps. */
  predicate Ran(fs: Fs, w: Walk, budget: nat, fs': Fs, outcome: Outcome, left: nat) {
    if budget < |w.states| then outcome.Died? && left == 0 && fs' == At(fs, w, budget)
    else outcome == w.outcome && left == budget - |w.states| && fs' == End(fs, w)
  }

  lemma RanThen(fs: Fs, w: Walk, next: Walk, budget: nat, middle: Fs, left: nat, fs': Fs, outcome: Outcome, left': nat)
    requires !w.outcome.Died? && Ran(fs, w, budget, middle, w.outcome, left) && Ran(middle, next, left, fs', outcome, left')
    ensures Ran(fs, Then(w, next), budget, fs', outcome, left')
  {
  }

  lemma RanDied(fs: Fs, w: Walk, next: Walk, budget: nat, fs': Fs, outcome: Outcome, left: nat)
    requires Ran(fs, w, budget, fs', outcome, left)
    requires budget < |w.states| || (left == 0 && next.states != [])
    ensures Ran(fs, Then(w, next), budget, fs', Died, 0)
  {
  }

  lemma EndThen(fs: Fs, w: Walk, next: Walk)
    ensures End(fs, Then(w, next)) == End(End(fs, w), next)
  {
  }

  function OneDir(fs: Fs, d: Path): Walk
    requires |d| > 0
  {
    Walk([MakeDir(fs, d), SyncDir(MakeDir(fs, d), Parent(d))], Installed)
  }

  /** Creates the missing directories, the upper ones first, each flushed in its parent. */
  function DirWalk(fs: Fs, path: Path, n: nat): Walk
    requires 1 <= n < |path|
    decreases n
  {
    var d := path[..n];
    if HasDir(fs, d) then Walk([], Installed)
    else
      var above := DirWalk(fs, path, n - 1);
      var at := End(fs, above);
      if !above.outcome.Installed? then above
      else if Look(at, d).Some? then Then(above, Walk([], Blocked))
      else Then(above, OneDir(at, d))
  }

  /** Writes and flushes the bytes under the staging name. */
  function StageWalk(fs: Fs, path: Path, body: Blob): Walk
    requires Below(path)
  {
    var created := Create(fs, StageOf(path, body));
    var written := Write(created, fs.next, Loose(body));
    Walk([created, written, Write(written, fs.next, Firm(body))], Installed)
  }

  /** Links the staged file under its name, unless that is taken, removes the staging name,
      and flushes. */
  function LinkWalk(fs: Fs, path: Path, body: Blob, i: nat): Walk
    requires Below(path)
  {
    var stage := StageOf(path, body);
    if Look(fs, path).Some? then Walk([Put(fs, stage, None)], Exists)
    else
      var linked := Put(fs, path, Some(FileAt(i)));
      var unlinked := Put(linked, stage, None);
      Walk([linked, unlinked, SyncDir(unlinked, Parent(path))], Installed)
  }

  function FileWalk(fs: Fs, path: Path, body: Blob): Walk
    requires Below(path)
  {
    var staged := StageWalk(fs, path, body);
    Then(staged, LinkWalk(End(fs, staged), path, body, fs.next))
  }

  /** The install below existing directories: staging state of an earlier attempt is
      finished if the link was made, and otherwise removed. */
  function PlaceWalk(fs: Fs, path: Path, body: Blob): Walk
    requires Below(path)
  {
    var stage := StageOf(path, body);
    match Look(fs, stage)
    case None => FileWalk(fs, path, body)
    case Some(Directory) => Walk([], Refused)
    case Some(FileAt(i)) =>
      var unlinked := Put(fs, stage, None);
      if LinkCount(fs, i) == 2 then
        if Look(fs, path) != Some(FileAt(i)) || BodyAt(fs, stage) != Some(body) then Walk([], Refused)
        else Walk([unlinked, SyncDir(unlinked, Parent(path))], Installed)
      else if LinkCount(fs, i) != 1 then Walk([], Refused)
      else Then(Walk([unlinked], Installed), FileWalk(unlinked, path, body))
  }

  function InstallWalk(fs: Fs, path: Path, body: Blob): Walk
    requires Below(path)
  {
    var dirs := DirWalk(fs, path, |path| - 1);
    if !dirs.outcome.Installed? then dirs else Then(dirs, PlaceWalk(End(fs, dirs), path, body))
  }

  // ------------------------------------------------------------ every state of the walk

  /** Every state of the walk is progress since the start. */
  ghost predicate Keeps(start: Fs, w: Walk, path: Path, body: Blob)
    requires Below(path)
  {
    forall m {:trigger w.states[m]} :: 0 <= m < |w.states| ==> Progress(start, w.states[m], path, body)
  }

  lemma KeepsThen(start: Fs, w: Walk, next: Walk, path: Path, body: Blob)
    requires Below(path) && Keeps(start, w, path, body) && Keeps(start, next, path, body)
    ensures Keeps(start, Then(w, next), path, body)
  {
    hide Progress;
    forall m {:trigger Then(w, next).states[m]} | 0 <= m < |Then(w, next).states| ensures Progress(start, Then(w, next).states[m], path, body) {
      assert m < |w.states| ==> Then(w, next).states[m] == w.states[m];
      assert m >= |w.states| ==> Then(w, next).states[m] == next.states[m - |w.states|];
    }
  }

  lemma KeepsAt(start: Fs, fs: Fs, w: Walk, path: Path, body: Blob, n: nat)
    requires Below(path) && Progress(start, fs, path, body) && Keeps(start, w, path, body)
    ensures Progress(start, At(fs, w, n), path, body) && Progress(start, End(fs, w), path, body)
  {
    hide Progress;
  }

  /** New directories above the path and no deeper than this, and nothing else. */
  ghost predicate OnlyDirs(fs: Fs, fs': Fs, path: Path, n: nat) {
    && fs'.files == fs.files && fs'.next == fs.next
    && forall q {:trigger Look(fs', q)} ::
         Look(fs', q) == Look(fs, q) || (Look(fs, q).None? && Look(fs', q) == Some(Directory) && q < path && |q| <= n)
  }

  lemma OnlyDirsOn(a: Fs, b: Fs, c: Fs, path: Path, n: nat, m: nat)
    requires OnlyDirs(a, b, path, n) && OnlyDirs(b, c, path, m) && n <= m
    ensures OnlyDirs(a, c, path, m)
  {
    hide Look;
  }

  lemma OneDirKeeps(start: Fs, fs: Fs, path: Path, body: Blob, n: nat)
    requires Below(path) && 2 <= n < |path| && Progress(start, fs, path, body)
    requires Look(fs, path[..n]).None? && HasDir(fs, path[..n - 1])
    ensures var w := OneDir(fs, path[..n]);
            Keeps(start, w, path, body) && HasDir(End(fs, w), path[..n]) && OnlyDirs(fs, End(fs, w), path, n)
  {
    hide Progress, Look, Put;
    var d := path[..n];
    PrefixFacts(path, n);
    MakeDirStep(start, fs, path, body, n);
    PutFacts(fs, d, Some(Directory));
    SyncStep(start, MakeDir(fs, d), path, body, Parent(d));
    SyncFacts(MakeDir(fs, d), Parent(d));
    assert Look(SyncDir(MakeDir(fs, d), Parent(d)), d) == Some(Directory);
  }

  lemma {:induction false} DirWalkKeeps(start: Fs, fs: Fs, path: Path, body: Blob, n: nat)
    requires Below(path) && 1 <= n < |path| && Progress(start, fs, path, body)
    ensures var w := DirWalk(fs, path, n);
            && Keeps(start, w, path, body) && Progress(start, End(fs, w), path, body)
            && |w.states| <= 2 * n && w.outcome in {Installed, Blocked}
            && (w.outcome.Installed? ==> HasDir(End(fs, w), path[..n]))
            && (w.outcome.Blocked? ==> InTheWay(End(fs, w), path))
            && OnlyDirs(fs, End(fs, w), path, n)
    decreases n
  {
    hide Progress, Look, Put, Keeps, SyncDir, MakeDir, OnlyDirs, OneDir, InTheWay;
    NoSteps(start, path, body);
    NoDirs(fs, path, n);
    var d := path[..n];
    if !HasDir(fs, d) {
      DirWalkKeeps(start, fs, path, body, n - 1);
      var above := DirWalk(fs, path, n - 1);
      var at := End(fs, above);
      OnlyDirsOn(fs, at, at, path, n - 1, n) by { NoDirs(at, path, n); }
      if above.outcome.Installed? {
        assert path[..n][..n - 1] == path[..n - 1];
        if Look(at, d).Some? {
          StillNoDir(fs, at, path, n);
          KeepsThen(start, above, Walk([], Blocked), path, body);
        } else {
          OneDirKeeps(start, at, path, body, n);
          OneDirIs(at, d);
          KeepsThen(start, above, OneDir(at, d), path, body);
          EndThen(fs, above, OneDir(at, d));
          OnlyDirsOn(fs, at, End(at, OneDir(at, d)), path, n - 1, n);
          KeepsAt(start, fs, Then(above, OneDir(at, d)), path, body, 0) by { assert Progress(start, fs, path, body); }
        }
      }
    }
  }

  lemma NoSteps(start: Fs, path: Path, body: Blob)
    requires Below(path)
    ensures forall outcome :: Keeps(start, Walk([], outcome), path, body)
  {
  }

  lemma NoDirs(fs: Fs, path: Path, n: nat)
    ensures OnlyDirs(fs, fs, path, n)
  {
  }

  lemma OneDirIs(fs: Fs, d: Path)
    requires |d| > 0
    ensures OneDir(fs, d) == Walk([MakeDir(fs, d), SyncDir(MakeDir(fs, d), Parent(d))], Installed)
  {
  }

  /** An entry that is not a directory is in the way. */
  lemma StillNoDir(fs: Fs, at: Fs, path: Path, n: nat)
    requires 2 <= n < |path| && OnlyDirs(fs, at, path, n - 1) && !HasDir(fs, path[..n]) && Look(at, path[..n]).Some?
    ensures InTheWay(at, path)
  {
    assert Look(at, path[..n]) == Look(fs, path[..n]);
  }

  lemma StageWalkKeeps(start: Fs, fs: Fs, path: Path, body: Blob)
    requires Below(path) && Progress(start, fs, path, body)
    requires Look(fs, StageOf(path, body)).None? && HasDir(fs, Parent(path))
    ensures var w, stage := StageWalk(fs, path, body), StageOf(path, body);
            var e := End(fs, w);
            && Keeps(start, w, path, body) && Progress(start, e, path, body)
            && fs.next !in start.files && fs.next in e.files && e.files[fs.next] == Firm(body) && Private(e, stage, fs.next)
            && Look(e, stage) == Some(FileAt(fs.next))
            && (forall q {:trigger Look(e, q)} :: q != stage ==> Look(e, q) == Look(fs, q))
            && (forall i :: i in fs.files ==> i != fs.next && i in e.files && e.files[i] == fs.files[i])
  {
    hide Progress, Look, Put, May, Private;
    var stage, i := StageOf(path, body), fs.next;
    TreeOf(start, fs, path, body);
    CreateStep(start, fs, path, body);
    CreateIs(fs, stage);
    FileFacts(fs, fs.files[i := Torn], i + 1);
    PutFacts(fs.(files := fs.files[i := Torn], next := i + 1), stage, Some(FileAt(i)));
    var created := Create(fs, stage);
    assert created.files == fs.files[i := Torn];
    WriteStep(start, created, path, body, i, Loose(body));
    FileFacts(created, created.files[i := Loose(body)], created.next);
    var written := Write(created, i, Loose(body));
    WriteStep(start, written, path, body, i, Firm(body));
    FileFacts(written, written.files[i := Firm(body)], written.next);
    assert StageWalk(fs, path, body).states[2] == Write(written, i, Firm(body));
  }

  lemma TreeOf(start: Fs, fs: Fs, path: Path, body: Blob)
    requires Below(path) && Progress(start, fs, path, body)
    ensures forall i :: i in fs.files ==> i < fs.next
  {
  }

  /** Nothing is under the staging name, and what is there is durable with its directory. */
  ghost predicate Released(fs: Fs, path: Path, body: Blob)
    requires Below(path)
  {
    Look(fs, StageOf(path, body)).None? && Settled(fs, path) && Settled(fs, StageOf(path, body))
  }

  /** The destination is a file with these bytes and one link. */
  ghost predicate Single(fs: Fs, path: Path, body: Blob) {
    && Look(fs, path).Some? && Look(fs, path).value.FileAt?
    && LinkCount(fs, Look(fs, path).value.inode) == 1 && BodyAt(fs, path) == Some(body)
  }

  lemma LinkWalkKeeps(start: Fs, fs: Fs, path: Path, body: Blob, i: nat)
    requires Below(path) && Progress(start, fs, path, body) && HasDir(fs, Parent(path))
    requires Look(fs, StageOf(path, body)) == Some(FileAt(i))
    requires i !in start.files && i in fs.files && fs.files[i] == Firm(body) && Private(fs, StageOf(path, body), i)
    ensures var w, stage := LinkWalk(fs, path, body, i), StageOf(path, body);
            var e := End(fs, w);
            && Keeps(start, w, path, body) && Progress(start, e, path, body) && e.files == fs.files
            && Look(e, stage).None?
            && (w.outcome == if Look(fs, path).Some? then Exists else Installed)
            && (forall q {:trigger Look(e, q)} :: q != stage && q != path ==> Look(e, q) == Look(fs, q))
            && (w.outcome.Exists? ==> Look(e, path) == Look(fs, path))
            && (w.outcome.Installed? ==> Look(e, path) == Some(FileAt(i)) && Released(e, path, body) && Single(e, path, body))
  {
    hide Progress, Look, Put, May, Private, Settled, LinkCount, BodyAt;
    var stage := StageOf(path, body);
    StageFacts(path, body);
    if Look(fs, path).Some? {
      UnlinkStep(start, fs, path, body);
      PutFacts(fs, stage, None);
    } else {
      LinkStep(start, fs, path, body, i);
      var linked := Put(fs, path, Some(FileAt(i)));
      PutFacts(fs, path, Some(FileAt(i)));
      UnlinkStep(start, linked, path, body);
      var unlinked := Put(linked, stage, None);
      PutFacts(linked, stage, None);
      SyncStep(start, unlinked, path, body, Parent(path));
      SyncFacts(unlinked, Parent(path));
      var e := SyncDir(unlinked, Parent(path));
      OneName(fs, e, path, stage, i);
      FirmReads(e, path, i, body);
      assert LinkWalk(fs, path, body, i).states[2] == e;
    }
  }

  lemma OneName(fs: Fs, e: Fs, path: Path, stage: Path, i: nat)
    requires Private(fs, stage, i) && stage != path && Look(e, path) == Some(FileAt(i)) && Look(e, stage).None?
    requires forall q {:trigger Look(e, q)} :: q != stage && q != path ==> Look(e, q) == Look(fs, q)
    ensures LinkCount(e, i) == 1
  {
    forall n | n in Names(e, i) ensures n == path {
      assert Look(e, n) == Some(FileAt(i));
      assert n != path ==> May(fs, n, Some(FileAt(i)));
    }
    assert Names(e, i) == {path};
  }

  lemma FirmReads(fs: Fs, path: Path, i: nat, body: Blob)
    requires Look(fs, path) == Some(FileAt(i)) && i in fs.files && fs.files[i] == Firm(body)
    ensures BodyAt(fs, path) == Some(body)
  {
  }

  /** What an install that goes on to the end leaves. */
  ghost predicate Placed(fs: Fs, e: Fs, w: Walk, path: Path, body: Blob)
    requires Below(path)
  {
    var stage := StageOf(path, body);
    && w.outcome in {Installed, Exists, Refused}
    && (w.outcome.Installed? ==> Released(e, path, body) && Single(e, path, body))
    && (w.outcome.Exists? ==> Look(fs, path).Some? && Look(e, path) == Look(fs, path) && Look(e, stage).None?)
    && (w.outcome.Refused? ==> e == fs && Look(fs, stage).Some? && (Look(fs, stage).value.FileAt? ==> LinkCount(fs, Look(fs, stage).value.inode) != 1))
    && (w.outcome.Refused? && Stageable(fs, path, body) ==> Look(fs, stage) == Some(Directory))
    && (Look(fs, stage) == Some(Directory) ==> w.outcome.Refused?)
    && (forall q {:trigger Look(e, q)} :: q != stage && q != path ==> Look(e, q) == Look(fs, q))
    && (forall i :: i in fs.files ==> i in e.files && e.files[i] == fs.files[i])
  }

  lemma FileWalkKeeps(start: Fs, fs: Fs, path: Path, body: Blob)
    requires Below(path) && Progress(start, fs, path, body)
    requires Look(fs, StageOf(path, body)).None? && HasDir(fs, Parent(path))
    ensures var w := FileWalk(fs, path, body);
            && Keeps(start, w, path, body) && Progress(start, End(fs, w), path, body) && |w.states| <= 6
            && w.outcome != Refused && Placed(fs, End(fs, w), w, path, body)
  {
    hide Progress, Look, Put, May, Private, Keeps, Released, Single, LinkCount, StageWalk, LinkWalk, Stageable;
    var staged := StageWalk(fs, path, body);
    var middle := End(fs, staged);
    StageFacts(path, body);
    StageWalkKeeps(start, fs, path, body);
    LinkWalkKeeps(start, middle, path, body, fs.next);
    WalkSizes(fs, middle, path, body, fs.next);
    KeepsThen(start, staged, LinkWalk(middle, path, body, fs.next), path, body);
    EndThen(fs, staged, LinkWalk(middle, path, body, fs.next));
  }

  lemma WalkSizes(fs: Fs, middle: Fs, path: Path, body: Blob, i: nat)
    requires Below(path)
    ensures |StageWalk(fs, path, body).states| == 3 && StageWalk(fs, path, body).outcome == Installed
    ensures 1 <= |LinkWalk(middle, path, body, i).states| <= 3
    ensures LinkWalk(middle, path, body, i).outcome == if Look(middle, path).Some? then Exists else Installed
  {
  }

  /** The second half of an attempt that died after the link. */
  lemma FinishKeeps(start: Fs, fs: Fs, path: Path, body: Blob, i: nat)
    requires Below(path) && Progress(start, fs, path, body)
    requires Look(fs, StageOf(path, body)) == Some(FileAt(i)) && LinkCount(fs, i) == 2
    requires Look(fs, path) == Some(FileAt(i)) && BodyAt(fs, StageOf(path, body)) == Some(body)
    ensures var unlinked := Put(fs, StageOf(path, body), None);
            var w := Walk([unlinked, SyncDir(unlinked, Parent(path))], Installed);
            && Keeps(start, w, path, body) && Progress(start, End(fs, w), path, body) && Placed(fs, End(fs, w), w, path, body)
  {
    hide Progress, Look, Put, May, Settled, LinkCount, BodyAt, Stageable, Single;
    var stage := StageOf(path, body);
    StageFacts(path, body);
    var unlinked := Put(fs, stage, None);
    UnlinkStep(start, fs, path, body);
    PutFacts(fs, stage, None);
    SyncStep(start, unlinked, path, body, Parent(path));
    SyncFacts(unlinked, Parent(path));
    var e := SyncDir(unlinked, Parent(path));
    OneLeft(fs, e, path, stage, i, body);
  }

  lemma OneLeft(fs: Fs, e: Fs, path: Path, stage: Path, i: nat, body: Blob)
    requires Look(fs, stage) == Some(FileAt(i)) && Look(fs, path) == Some(FileAt(i)) && stage != path && LinkCount(fs, i) == 2
    requires BodyAt(fs, stage) == Some(body) && e.files == fs.files
    requires forall q {:trigger Look(e, q)} :: Look(e, q) == if q == stage then None else Look(fs, q)
    ensures Single(e, path, body)
  {
    var names := Names(fs, i);
    assert {stage, path} <= names;
    assert |names - {stage, path}| == 0;
    assert Names(e, i) == {path} by {
      forall n ensures n in Names(e, i) <==> n == path {
        assert n in Names(e, i) <==> Look(e, n) == Some(FileAt(i));
        assert n in names - {stage, path} <==> Look(fs, n) == Some(FileAt(i)) && n != stage && n != path;
        assert names - {stage, path} == {};
      }
    }
  }

  lemma PlaceWalkKeeps(start: Fs, fs: Fs, path: Path, body: Blob)
    requires Below(path) && Progress(start, fs, path, body) && HasDir(fs, Parent(path))
    ensures var w := PlaceWalk(fs, path, body);
            && Keeps(start, w, path, body) && Progress(start, End(fs, w), path, body) && |w.states| <= 7
            && Placed(fs, End(fs, w), w, path, body)
  {
    hide Progress, Put, May, Keeps, Released, Single, LinkCount, FileWalk, SyncDir, BodyAt, Stageable;
    var stage := StageOf(path, body);
    StageFacts(path, body);
    NoSteps(start, path, body);
    if Look(fs, stage).None? {
      FileWalkKeeps(start, fs, path, body);
    } else if Look(fs, stage).value.FileAt? {
      var i := Look(fs, stage).value.inode;
      if Stageable(fs, path, body) {
        StagedNames(fs, path, body, i);
        if LinkCount(fs, i) == 2 { FirmReads(fs, stage, i, body); }
      }
      if LinkCount(fs, i) == 2 && Look(fs, path) == Some(FileAt(i)) && BodyAt(fs, stage) == Some(body) {
        FinishKeeps(start, fs, path, body, i);
      } else if LinkCount(fs, i) == 1 {
        AgainKeeps(start, fs, path, body);
      }
    }
  }

  /** An attempt that died before the link is begun again. */
  lemma AgainKeeps(start: Fs, fs: Fs, path: Path, body: Blob)
    requires Below(path) && Progress(start, fs, path, body) && HasDir(fs, Parent(path))
    requires Look(fs, StageOf(path, body)).Some? && Look(fs, StageOf(path, body)).value.FileAt?
    requires LinkCount(fs, Look(fs, StageOf(path, body)).value.inode) == 1
    ensures var unlinked := Put(fs, StageOf(path, body), None);
            var w := Then(Walk([unlinked], Installed), FileWalk(unlinked, path, body));
            && Keeps(start, w, path, body) && Progress(start, End(fs, w), path, body) && |w.states| <= 7
            && Placed(fs, End(fs, w), w, path, body)
  {
    hide Progress, Look, Put, May, Released, Single, LinkCount, FileWalk, Stageable, Keeps;
    var stage := StageOf(path, body);
    StageFacts(path, body);
    UnlinkStep(start, fs, path, body);
    PutFacts(fs, stage, None);
    var unlinked := Put(fs, stage, None);
    ParentHasDir(fs, unlinked, path, stage);
    FileWalkKeeps(start, unlinked, path, body);
    OneKeeps(start, unlinked, path, body);
    KeepsThen(start, Walk([unlinked], Installed), FileWalk(unlinked, path, body), path, body);
    EndThen(fs, Walk([unlinked], Installed), FileWalk(unlinked, path, body));
  }

  lemma OneKeeps(start: Fs, fs: Fs, path: Path, body: Blob)
    requires Below(path) && Progress(start, fs, path, body)
    ensures Keeps(start, Walk([fs], Installed), path, body)
  {
    hide Progress;
  }

  lemma ParentHasDir(fs: Fs, fs': Fs, path: Path, stage: Path)
    requires Below(path) && |stage| == |path| && HasDir(fs, Parent(path))
    requires forall q {:trigger Look(fs', q)} :: q != stage ==> Look(fs', q) == Look(fs, q)
    ensures HasDir(fs', Parent(path))
  {
  }

  // ------------------------------------------------------------ the whole walk

  /** What the procedure leaves when it is not interrupted. */
  ghost predicate Done(fs: Fs, e: Fs, outcome: Outcome, path: Path, body: Blob)
    requires Below(path)
  {
    var stage := StageOf(path, body);
    && outcome != Died
    && (outcome.Installed? ==> Released(e, path, body) && Single(e, path, body))
    && (outcome.Exists? ==> Look(fs, path).Some? && Look(e, path) == Look(fs, path) && Look(e, stage).None?)
    && (outcome.Blocked? ==> InTheWay(e, path))
    && (outcome.Refused? ==> Look(fs, stage).Some? && Look(e, stage) == Look(fs, stage)
                             && (Look(fs, stage).value.FileAt? ==> LinkCount(fs, Look(fs, stage).value.inode) != 1))
    && (outcome.Refused? && Stageable(fs, path, body) ==> Look(fs, stage) == Some(Directory))
    && (Look(fs, stage) == Some(Directory) ==> outcome in {Blocked, Refused})
  }

  lemma InstallWalkKeeps(fs: Fs, path: Path, body: Blob)
    requires Below(path) && Tree(fs)
    ensures var w := InstallWalk(fs, path, body);
            && Keeps(fs, w, path, body) && Progress(fs, End(fs, w), path, body) && |w.states| <= 2 * |path| + 5
            && Done(fs, End(fs, w), w.outcome, path, body)
  {
    hide Progress, Look, May, Keeps, Released, Single, LinkCount, PlaceWalk, DirWalk, Stageable, InTheWay;
    NoProgress(fs, path, body);
    StageFacts(path, body);
    DirWalkKeeps(fs, fs, path, body, |path| - 1);
    var dirs := DirWalk(fs, path, |path| - 1);
    var at := End(fs, dirs);
    if dirs.outcome.Installed? {
      PlaceWalkKeeps(fs, at, path, body);
      KeepsThen(fs, dirs, PlaceWalk(at, path, body), path, body);
      EndThen(fs, dirs, PlaceWalk(at, path, body));
      DirsKeepNames(fs, at, path, body);
    } else {
      DirsKeepNames(fs, at, path, body);
    }
  }

  /** Directories above leave everything else alone. */
  lemma DirsKeepNames(fs: Fs, at: Fs, path: Path, body: Blob)
    requires Below(path) && OnlyDirs(fs, at, path, |path| - 1) && Progress(fs, at, path, body)
    ensures Look(at, path) == Look(fs, path) && Look(at, StageOf(path, body)) == Look(fs, StageOf(path, body))
    ensures forall i :: LinkCount(at, i) == LinkCount(fs, i)
    ensures Stageable(fs, path, body) ==> Stageable(at, path, body)
  {
    hide Stageable, Around, Guarded, Staged, Tree;
    StageFacts(path, body);
    forall i ensures LinkCount(at, i) == LinkCount(fs, i) {
      forall p ensures p in Names(at, i) <==> p in Names(fs, i) {
        assert Look(at, p) == Look(fs, p) || Look(at, p) == Some(Directory);
      }
      assert Names(at, i) == Names(fs, i);
    }
  }

  // ------------------------------------------------------------ the install

  class Volume {
    var fs: Fs

    constructor (fs: Fs)
      ensures this.fs == fs
    {
      this.fs := fs;
    }

    /** Creates the missing directories, each flushed in its parent. */
    method MakeDirs(path: Path, n: nat, budget: nat) returns (outcome: Outcome, left: nat)
      requires 1 <= n < |path|
      modifies this
      ensures Ran(old(fs), DirWalk(old(fs), path, n), budget, fs, outcome, left)
      decreases n
    {
      hide Put, SyncDir, HasDir, Look;
      left := budget;
      var d := path[..n];
      if HasDir(fs, d) { return Installed, left; }
      TopIsDir(fs, path, n);
      ghost var start, above := fs, DirWalk(fs, path, n - 1);
      outcome, left := MakeDirs(path, n - 1, left);
      if !outcome.Installed? {
        return;
      }
      ghost var at := fs;
      if Look(fs, d).Some? {
        return Blocked, left;
      }
      if left == 0 {
        RanDied(start, above, OneDir(at, d), budget, fs, outcome, left);
        return Died, 0;
      }
      fs := MakeDir(fs, d);
      left := left - 1;
      if left == 0 {
        RanThen(start, above, OneDir(at, d), budget, at, 1, fs, Died, 0);
        return Died, 0;
      }
      fs := SyncDir(fs, Parent(d));
      RanThen(start, above, OneDir(at, d), budget, at, left + 1, fs, Installed, left - 1);
      return Installed, left - 1;
    }

    /** Writes and flushes the bytes under the staging name, in three steps. */
    method Stage(path: Path, body: Blob, budget: nat) returns (i: nat, outcome: Outcome, left: nat)
      requires Below(path)
      modifies this
      ensures Ran(old(fs), StageWalk(old(fs), path, body), budget, fs, outcome, left) && i == old(fs).next
    {
      hide Create, Write;
      var stage := StageOf(path, body);
      i := fs.next;
      if budget == 0 { return i, Died, 0; }
      fs := Create(fs, stage);
      if budget == 1 { return i, Died, 0; }
      fs := Write(fs, i, Loose(body));
      if budget == 2 { return i, Died, 0; }
      fs := Write(fs, i, Firm(body));
      return i, Installed, budget - 3;
    }

    /** Links the staged file under its name, removes the staging name, flushes. */
    method Release(path: Path, body: Blob, i: nat, budget: nat) returns (outcome: Outcome, left: nat)
      requires Below(path)
      modifies this
      ensures Ran(old(fs), LinkWalk(old(fs), path, body, i), budget, fs, outcome, left)
    {
      hide Put, SyncDir, Look;
      var stage := StageOf(path, body);
      if budget == 0 { return Died, 0; }
      if Look(fs, path).Some? {
        fs := Put(fs, stage, None);
        return Exists, budget - 1;
      }
      fs := Put(fs, path, Some(FileAt(i)));
      if budget == 1 { return Died, 0; }
      fs := Put(fs, stage, None);
      if budget == 2 { return Died, 0; }
      fs := SyncDir(fs, Parent(path));
      return Installed, budget - 3;
    }

    /** A fresh file, through its staging name. */
    method PutFile(path: Path, body: Blob, budget: nat) returns (outcome: Outcome, left: nat)
      requires Below(path)
      modifies this
      ensures Ran(old(fs), FileWalk(old(fs), path, body), budget, fs, outcome, left)
    {
      hide StageWalk, LinkWalk;
      ghost var start := fs;
      var i;
      i, outcome, left := Stage(path, body, budget);
      WalkSizes(start, End(start, StageWalk(start, path, body)), path, body, i);
      if outcome.Died? {
        RanDied(start, StageWalk(start, path, body), LinkWalk(End(start, StageWalk(start, path, body)), path, body, i), budget, fs, outcome, left);
        return;
      }
      ghost var middle, more := fs, left;
      outcome, left := Release(path, body, i, left);
      RanThen(start, StageWalk(start, path, body), LinkWalk(middle, path, body, i), budget, middle, more, fs, outcome, left);
    }

    /** The install below existing directories. */
    method Place(path: Path, body: Blob, budget: nat) returns (outcome: Outcome, left: nat)
      requires Below(path)
      modifies this
      ensures Ran(old(fs), PlaceWalk(old(fs), path, body), budget, fs, outcome, left)
    {
      hide FileWalk, Put, SyncDir, Look, LinkCount, BodyAt;
      ghost var start := fs;
      var stage := StageOf(path, body);
      var found := Look(fs, stage);
      if found.None? {
        outcome, left := PutFile(path, body, budget);
        return;
      }
      if found.value.Directory? { return Refused, budget; }
      var i := found.value.inode;
      var links := LinkCount(fs, i);
      if links == 2 {
        if Look(fs, path) != found || BodyAt(fs, stage) != Some(body) { return Refused, budget; }
        if budget == 0 { return Died, 0; }
        fs := Put(fs, stage, None);
        if budget == 1 { return Died, 0; }
        fs := SyncDir(fs, Parent(path));
        return Installed, budget - 2;
      }
      if links != 1 { return Refused, budget; }
      if budget == 0 { return Died, 0; }
      fs := Put(fs, stage, None);
      ghost var middle := fs;
      outcome, left := PutFile(path, body, budget - 1);
      RanThen(start, Walk([middle], Installed), FileWalk(middle, path, body), budget, middle, budget - 1, fs, outcome, left);
    }

    /** The whole procedure. */
    method Install(path: Path, body: Blob, budget: nat) returns (outcome: Outcome, left: nat)
      requires Below(path)
      modifies this
      ensures Ran(old(fs), InstallWalk(old(fs), path, body), budget, fs, outcome, left)
    {
      hide DirWalk, PlaceWalk;
      ghost var start, dirs := fs, DirWalk(fs, path, |path| - 1);
      outcome, left := MakeDirs(path, |path| - 1, budget);
      if !outcome.Installed? {
        if budget < |dirs.states| && dirs.outcome.Installed? {
          RanDied(start, dirs, PlaceWalk(End(start, dirs), path, body), budget, fs, outcome, left);
        }
        return;
      }
      ghost var middle, more := fs, left;
      outcome, left := Place(path, body, left);
      RanThen(start, dirs, PlaceWalk(middle, path, body), budget, middle, more, fs, outcome, left);
    }

    /** Recoverable publication of exactly these bytes under this name. */
    method InstallFile(path: Path, body: Blob, budget: nat) returns (outcome: Outcome, left: nat)
      requires Tree(fs) && Below(path)
      modifies this
      ensures Ran(old(fs), InstallWalk(old(fs), path, body), budget, fs, outcome, left)
      ensures Progress(old(fs), fs, path, body) && left <= budget
      ensures budget >= 2 * |path| + 5 ==> !outcome.Died? && left + 2 * |path| + 5 >= budget
      ensures !outcome.Died? ==> Done(old(fs), fs, outcome, path, body)
      ensures Own(old(fs), path, body) ==> Own(fs, path, body)
      ensures Owned(old(fs), path, body) ==> Owned(fs, path, body) && Look(fs, path) != Some(Directory)
      ensures Own(old(fs), path, body) && outcome in {Installed, Exists} && Look(fs, path) != Some(Directory) ==> Single(fs, path, body)
    {
      hide Progress, InstallWalk, Keeps, Own, Single, Look, Stageable, InTheWay, Released;
      InstallWalkKeeps(fs, path, body);
      KeepsAt(fs, fs, InstallWalk(fs, path, body), path, body, budget) by { NoProgress(fs, path, body); }
      outcome, left := Install(path, body, budget);
      AfterInstall(old(fs), fs, path, body);
    }
  }

  lemma AfterInstall(fs: Fs, e: Fs, path: Path, body: Blob)
    requires Below(path) && Tree(fs) && Progress(fs, e, path, body)
    ensures Own(fs, path, body) ==> Own(e, path, body)
    ensures Owned(fs, path, body) ==> Owned(e, path, body) && Look(e, path) != Some(Directory)
    ensures (&& Own(fs, path, body) && (Look(e, StageOf(path, body)).None? || Look(e, StageOf(path, body)) == Some(Directory))
             && Look(e, path).Some? && Look(e, path) != Some(Directory)) ==> Single(e, path, body)
    ensures Look(fs, path).Some? ==> Look(e, path).Some?
  {
    hide Around, Staged, Stageable, Tree;
    if Own(fs, path, body) {
      ProgressKeepsOwn(fs, e, path, body);
      if (Look(e, StageOf(path, body)).None? || Look(e, StageOf(path, body)) == Some(Directory)) && Look(e, path).Some? && Look(e, path) != Some(Directory) {
        OwnReads(e, path, body);
      }
    }
    MayNow(e, path);
  }

  lemma TopIsDir(fs: Fs, path: Path, n: nat)
    requires 1 <= n < |path| && !HasDir(fs, path[..n])
    ensures n >= 2
  {
  }
}

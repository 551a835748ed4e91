/** A file system with directories, inodes and hard links, in which an entry that was not
    yet flushed with its directory may be lost or come back at a power loss. */
module Disk {
  import opened Wrappers
  import opened Wire

  /** A path component: the name that the relay derives from another name and the digest of
      some bytes, to stage a file beside its destination, or any other name. Nothing keeps a
      published file from being called by a staging name. */
  datatype Leaf = Plain(name: string) | Stage(of: Leaf, digest: Digest)

  /** A path from the top; paths of length one are provisioned roots, which always exist. */
  type Path = seq<Leaf>

  datatype Entry = FileAt(inode: nat) | Directory

  /** A file's bytes: incomplete, complete but not flushed, or flushed. */
  datatype Content = Torn | Loose(body: Blob) | Firm(body: Blob)

  /** The live entries, states that an entry had since its directory was last flushed, the
      files by inode, and the next new inode. */
  datatype Fs = Fs(live: map<Path, Entry>, olds: set<(Path, Option<Entry>)>, files: map<nat, Content>, next: nat)

  function Look(fs: Fs, p: Path): Option<Entry> {
    if p in fs.live then Some(fs.live[p]) else None
  }

  function Parent(p: Path): Path
    requires |p| > 0
  {
    p[..|p| - 1]
  }

  predicate HasDir(fs: Fs, d: Path) {
    |d| == 1 || Look(fs, d) == Some(Directory)
  }

  /** The bytes read through a path. */
  function BodyAt(fs: Fs, p: Path): Option<Blob> {
    match Look(fs, p)
    case Some(FileAt(i)) => if i in fs.files && !fs.files[i].Torn? then Some(fs.files[i].body) else None
    case _ => None
  }

  function Names(fs: Fs, i: nat): set<Path> {
    set p | p in fs.live && fs.live[p] == FileAt(i)
  }

  function LinkCount(fs: Fs, i: nat): nat {
    |Names(fs, i)|
  }

  // ------------------------------------------------------------ operations

  /** Changes one entry; its former state stays possible until the directory is flushed. */
  function Put(fs: Fs, p: Path, e: Option<Entry>): Fs {
    fs.(live := if e.Some? then fs.live[p := e.value] else fs.live - {p}, olds := fs.olds + {(p, Look(fs, p))})
  }

  function MakeDir(fs: Fs, p: Path): Fs {
    Put(fs, p, Some(Directory))
  }

  /** An exclusive create of an empty file under a new inode. */
  function Create(fs: Fs, p: Path): Fs {
    Put(fs, p, Some(FileAt(fs.next))).(files := fs.files[fs.next := Torn], next := fs.next + 1)
  }

  function Write(fs: Fs, i: nat, content: Content): Fs {
    fs.(files := fs.files[i := content])
  }

  /** Flushes a directory: the live state of its entries becomes the only one. */
  function SyncDir(fs: Fs, d: Path): Fs {
    fs.(olds := set o | o in fs.olds && !(|o.0| > 0 && Parent(o.0) == d))
  }

  /** What a power loss can leave: each entry in one of its possible states, unless a
      directory above it is gone; flushed bytes stay, others may become anything. */
  ghost predicate PowerLoss(fs: Fs, fs': Fs) {
    && fs'.olds == {}
    && fs'.files.Keys == fs.files.Keys && fs'.next == fs.next
    && (forall i :: i in fs.files && fs.files[i].Firm? ==> fs'.files[i] == fs.files[i])
    && (forall p {:trigger Look(fs', p)} :: Look(fs', p).Some? ==> May(fs, p, Look(fs', p)) && |p| > 1 && HasDir(fs', Parent(p)))
    && (forall p {:trigger Look(fs', p)} :: Look(fs', p).None? ==> May(fs, p, None) || (|p| > 1 && !HasDir(fs', Parent(p))))
  }

  // ------------------------------------------------------------ what may be on the disk

  /** The entry is in this state, or may be found in it after a power loss. */
  predicate May(fs: Fs, p: Path, e: Option<Entry>) {
    Look(fs, p) == e || (p, e) in fs.olds
  }

  lemma PutFacts(fs: Fs, p: Path, x: Option<Entry>)
    ensures Put(fs, p, x).files == fs.files && Put(fs, p, x).next == fs.next
    ensures forall q {:trigger Look(Put(fs, p, x), q)} :: Look(Put(fs, p, x), q) == if q == p then x else Look(fs, q)
    ensures forall q, e {:trigger May(Put(fs, p, x), q, e)} :: May(Put(fs, p, x), q, e) <==> May(fs, q, e) || (q == p && e == x)
  {
  }

  lemma FileFacts(fs: Fs, files: map<nat, Content>, next: nat)
    ensures forall q {:trigger Look(fs.(files := files, next := next), q)} :: Look(fs.(files := files, next := next), q) == Look(fs, q)
    ensures forall q, e {:trigger May(fs.(files := files, next := next), q, e)} :: May(fs.(files := files, next := next), q, e) == May(fs, q, e)
  {
  }

  lemma SyncFacts(fs: Fs, d: Path)
    ensures SyncDir(fs, d).files == fs.files && SyncDir(fs, d).next == fs.next
    ensures forall q {:trigger Look(SyncDir(fs, d), q)} :: Look(SyncDir(fs, d), q) == Look(fs, q)
    ensures forall q, e {:trigger May(SyncDir(fs, d), q, e)} :: May(SyncDir(fs, d), q, e) ==> May(fs, q, e)
    ensures forall q, e {:trigger May(SyncDir(fs, d), q, e)} :: |q| > 0 && Parent(q) == d ==>
              (May(SyncDir(fs, d), q, e) <==> e == Look(fs, q))
  {
  }

  /** Only the live state is possible. */
  ghost predicate Settled(fs: Fs, p: Path) {
    forall e :: May(fs, p, e) ==> e == Look(fs, p)
  }

  /** The file and every directory entry that leads to it survive any power loss. */
  ghost predicate Durable(fs: Fs, p: Path, body: Blob) {
    && |p| > 1
    && (exists i {:trigger FileAt(i)} :: Look(fs, p) == Some(FileAt(i)) && i in fs.files && fs.files[i] == Firm(body))
    && (forall n {:trigger p[..n]} :: 2 <= n <= |p| ==> Settled(fs, p[..n]))
    && (forall n {:trigger p[..n]} :: 2 <= n < |p| ==> Look(fs, p[..n]) == Some(Directory))
  }

  /** Every entry is below an existing directory, and names a known inode. */
  ghost predicate Tree(fs: Fs) {
    && (forall i :: i in fs.files ==> i < fs.next)
    && (forall p {:trigger p in fs.live} :: p in fs.live ==> |p| > 1 && HasDir(fs, Parent(p)))
    && (forall p, i {:trigger May(fs, p, Some(FileAt(i)))} :: May(fs, p, Some(FileAt(i))) ==> i in fs.files)
  }

  lemma DurableReads(fs: Fs, p: Path, body: Blob)
    requires Durable(fs, p, body)
    ensures BodyAt(fs, p) == Some(body)
  {
  }

  /** A durable file is still there, with the same bytes and still durable, after a power
      loss. */
  lemma DurableSurvives(fs: Fs, fs': Fs, p: Path, body: Blob)
    requires PowerLoss(fs, fs') && Durable(fs, p, body)
    ensures Durable(fs', p, body) && BodyAt(fs', p) == Some(body)
  {
    forall n {:trigger p[..n]} | 2 <= n <= |p| ensures Look(fs', p[..n]) == Look(fs, p[..n]) && Settled(fs', p[..n]) {
      ChainSurvives(fs, fs', p, n);
    }
    assert p[..|p|] == p;
  }

  lemma {:induction false} ChainSurvives(fs: Fs, fs': Fs, p: Path, n: nat)
    requires PowerLoss(fs, fs') && 2 <= n <= |p| && Look(fs, p).Some?
    requires forall k {:trigger p[..k]} :: 2 <= k <= |p| ==> Settled(fs, p[..k])
    requires forall k {:trigger p[..k]} :: 2 <= k < |p| ==> Look(fs, p[..k]) == Some(Directory)
    ensures Look(fs', p[..n]) == Look(fs, p[..n])
  {
    assert p[..|p|] == p;
    assert Parent(p[..n]) == p[..n - 1];
    if n > 2 { ChainSurvives(fs, fs', p, n - 1); }
    assert Settled(fs, p[..n]);
  }
}

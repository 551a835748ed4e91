/** The fan-out discipline: how the journal's events and HEAD files reach every
    mailbox, what holds after every file operation, and after a power loss.

    A mailbox's directory entries are live at once and durable after a directory
    barrier; a power loss keeps any subset of the entries that are not durable. */
module Fanout {
  import opened Wrappers
  import opened Wire
  import opened Channel
  import opened Ledger

  datatype Head = Head(n: nat, digest: Digest)

  datatype Mailbox = Mailbox(
    feed: map<nat, Blob>,
    synced: set<nat>,
    head: Option<Head>,
    safeHead: Option<Head>)

  const EMPTY_MAILBOX := Mailbox(map[], {}, None, None)

  /** The journal's events and published marks, and one mailbox per participant. */
  datatype Fan = Fan(events: seq<Event>, published: set<nat>, boxes: seq<Mailbox>)

  function UpTo(n: nat): (r: set<nat>)
    ensures forall k :: k in r <==> 1 <= k <= n
  {
    if n == 0 then {} else UpTo(n - 1) + {n}
  }

  ghost predicate AllPublished(s: Fan) {
    s.published == UpTo(|s.events|)
  }

  /** The HEAD that names the first n events; there is none before the first. */
  function HeadOf(config: Config, events: seq<Event>, n: nat): Option<Head>
    requires n <= |events|
  {
    if n == 0 then None else Some(Head(n, EventDigest(config, events[n - 1])))
  }

  // ------------------------------------------------------------ steps

  datatype FanStep =
    | Admit(e: Event)
    | Put(p: nat, n: nat)
    | Barrier(p: nat)
    | SetHead(p: nat, n: nat)
    | Mark(n: nat)
    | PowerLoss(after: seq<Mailbox>)

  /** What may be found in a mailbox after a power loss. */
  ghost predicate Survives(box: Mailbox, after: Mailbox) {
    && box.synced <= after.feed.Keys <= box.feed.Keys
    && (forall k :: k in after.feed.Keys ==> after.feed[k] == box.feed[k])
    && after.synced == after.feed.Keys
    && after.head in {box.head, box.safeHead}
    && after.safeHead == after.head
  }

  ghost predicate Next(config: Config, s: Fan, step: FanStep, t: Fan) {
    match step
    case Admit(e) =>
      && AllPublished(s)
      && t == s.(events := s.events + [e])
    case Put(p, n) =>
      && p < |s.boxes| && 1 <= n <= |s.events| && n !in s.published && n !in s.boxes[p].feed
      && t == s.(boxes := s.boxes[p := s.boxes[p].(feed := s.boxes[p].feed[n := Channel.Envelope(config, s.events[n - 1])])])
    case Barrier(p) =>
      && p < |s.boxes|
      && t == s.(boxes := s.boxes[p := s.boxes[p].(synced := s.boxes[p].feed.Keys, safeHead := s.boxes[p].head)])
    case SetHead(p, n) =>
      && p < |s.boxes| && 1 <= n <= |s.events| && n !in s.published
      && (forall q :: 0 <= q < |s.boxes| ==> n in s.boxes[q].synced)
      && t == s.(boxes := s.boxes[p := s.boxes[p].(head := HeadOf(config, s.events, n))])
    case Mark(n) =>
      && 1 <= n <= |s.events| && n !in s.published
      && (forall q :: 0 <= q < |s.boxes| ==> s.boxes[q].safeHead == HeadOf(config, s.events, n))
      && t == s.(published := s.published + {n})
    case PowerLoss(after) =>
      && |after| == |s.boxes|
      && (forall q :: 0 <= q < |s.boxes| ==> Survives(s.boxes[q], after[q]))
      && t == s.(boxes := after)
  }

  ghost predicate CanStep(config: Config, s: Fan, t: Fan) {
    exists step: FanStep :: Next(config, s, step, t)
  }

  ghost predicate Init(config: Config, s: Fan) {
    && s.events == [] && s.published == {}
    && |s.boxes| == |config.participants|
    && (forall q :: 0 <= q < |s.boxes| ==> s.boxes[q] == EMPTY_MAILBOX)
  }

  /** A run of the protocol, step by step, from the provisioned empty namespace. */
  ghost predicate IsRun(config: Config, run: seq<Fan>) {
    |run| > 0 &&
    if |run| == 1 then Init(config, run[0])
    else IsRun(config, run[..|run| - 1]) && CanStep(config, run[|run| - 2], run[|run| - 1])
  }

  lemma ExtendRun(config: Config, run: seq<Fan>, step: FanStep, t: Fan)
    requires IsRun(config, run) && Next(config, run[|run| - 1], step, t)
    ensures IsRun(config, run + [t])
  {
    assert (run + [t])[..|run|] == run;
  }

  // ------------------------------------------------------------ invariant

  /** A mailbox holds only journal bytes, and every published event durably. */
  ghost predicate BoxInv(config: Config, s: Fan, box: Mailbox) {
    && box.synced <= box.feed.Keys <= UpTo(|s.events|)
    && (forall k :: k in box.feed ==> box.feed[k] == Channel.Envelope(config, s.events[k - 1]))
    && s.published <= box.synced
  }

  /** The HEADs of a mailbox name the last event or, while it is unpublished, the one
      before; they may name the last event only once `spread` holds. */
  ghost predicate HeadInv(config: Config, s: Fan, box: Mailbox, spread: bool) {
    var n := |s.events|;
    if AllPublished(s) then
      box.head == box.safeHead == HeadOf(config, s.events, n)
    else
      && n > 0
      && box.head in {HeadOf(config, s.events, n), HeadOf(config, s.events, n - 1)}
      && box.safeHead in {HeadOf(config, s.events, n), HeadOf(config, s.events, n - 1)}
      && (box.head == HeadOf(config, s.events, n) || box.safeHead == HeadOf(config, s.events, n) ==> spread)
      && (box.safeHead == HeadOf(config, s.events, n) ==> box.head == box.safeHead)
  }

  /** The last event is durable in every mailbox. */
  ghost predicate Spread(s: Fan) {
    forall q :: 0 <= q < |s.boxes| ==> |s.events| in s.boxes[q].synced
  }

  ghost predicate Inv(config: Config, s: Fan) {
    && |s.boxes| == |config.participants|
    && (s.published == UpTo(|s.events|) || (|s.events| > 0 && s.published == UpTo(|s.events| - 1)))
    && (forall q :: 0 <= q < |s.boxes| ==> BoxInv(config, s, s.boxes[q]))
    && (forall q :: 0 <= q < |s.boxes| ==> HeadInv(config, s, s.boxes[q], Spread(s)))
  }

  lemma UpToGrows(n: nat)
    ensures UpTo(n + 1) == UpTo(n) + {n + 1}
    ensures UpTo(n) != UpTo(n + 1)
  {
    assert n + 1 in UpTo(n + 1) && n + 1 !in UpTo(n);
  }

  /** An unpublished event is the last one. */
  lemma Unpublished(config: Config, s: Fan, n: nat)
    requires Inv(config, s) && 1 <= n <= |s.events| && n !in s.published
    ensures n == |s.events| && s.published == UpTo(n - 1) && !AllPublished(s)
  {
    UpToGrows(n - 1);
  }

  lemma NextKeepsInv(config: Config, s: Fan, step: FanStep, t: Fan)
    requires Inv(config, s) && Next(config, s, step, t)
    ensures Inv(config, t)
  {
    match step
    case Admit(e) => AdmitKeepsInv(config, s, e, t);
    case Put(p, n) => PutKeepsInv(config, s, p, n, t);
    case Barrier(p) => BarrierKeepsInv(config, s, p, t);
    case SetHead(p, n) => SetHeadKeepsInv(config, s, p, n, t);
    case Mark(n) => MarkKeepsInv(config, s, n, t);
    case PowerLoss(after) => LossKeepsInv(config, s, after, t);
  }

  lemma PutKeepsInv(config: Config, s: Fan, p: nat, n: nat, t: Fan)
    requires Inv(config, s) && Next(config, s, Put(p, n), t)
    ensures Inv(config, t)
  {
    hide Channel.Envelope, EventDigest;
    Unpublished(config, s, n);
    BoxesKeepInv(config, s, t, p);
  }

  lemma BarrierKeepsInv(config: Config, s: Fan, p: nat, t: Fan)
    requires Inv(config, s) && Next(config, s, Barrier(p), t)
    ensures Inv(config, t)
  {
    hide Channel.Envelope, EventDigest;
    BoxesKeepInv(config, s, t, p);
  }

  lemma SetHeadKeepsInv(config: Config, s: Fan, p: nat, n: nat, t: Fan)
    requires Inv(config, s) && Next(config, s, SetHead(p, n), t)
    ensures Inv(config, t)
  {
    hide Channel.Envelope, EventDigest;
    Unpublished(config, s, n);
    BoxesKeepInv(config, s, t, p);
  }

  /** A step that changes only mailbox p, and durably takes nothing from it. */
  lemma BoxesKeepInv(config: Config, s: Fan, t: Fan, p: nat)
    requires Inv(config, s) && p < |s.boxes|
    requires |t.boxes| == |s.boxes| && t == s.(boxes := s.boxes[p := t.boxes[p]])
    requires s.boxes[p].synced <= t.boxes[p].synced
    requires BoxInv(config, t, t.boxes[p]) && HeadInv(config, t, t.boxes[p], Spread(s))
    ensures Inv(config, t)
  {
    hide EventDigest, Channel.Envelope;
    assert Spread(s) ==> Spread(t);
    forall q | 0 <= q < |t.boxes|
      ensures BoxInv(config, t, t.boxes[q]) && HeadInv(config, t, t.boxes[q], Spread(t))
    {
      assert q != p ==> t.boxes[q] == s.boxes[q] && BoxInv(config, s, s.boxes[q]) && HeadInv(config, s, s.boxes[q], Spread(s));
    }
  }

  lemma MarkKeepsInv(config: Config, s: Fan, n: nat, t: Fan)
    requires Inv(config, s) && Next(config, s, Mark(n), t)
    ensures Inv(config, t)
  {
    hide Channel.Envelope, EventDigest;
    Unpublished(config, s, n);
    UpToGrows(n - 1);
    assert HeadOf(config, s.events, n) != HeadOf(config, s.events, n - 1);
    forall q | 0 <= q < |t.boxes|
      ensures BoxInv(config, t, t.boxes[q]) && HeadInv(config, t, t.boxes[q], Spread(t))
    {
      assert BoxInv(config, s, s.boxes[q]) && HeadInv(config, s, s.boxes[q], Spread(s));
    }
  }

  lemma LossKeepsInv(config: Config, s: Fan, after: seq<Mailbox>, t: Fan)
    requires Inv(config, s) && Next(config, s, PowerLoss(after), t)
    ensures Inv(config, t)
  {
    hide Channel.Envelope, EventDigest;
    if Spread(s) {
      SpreadSurvives(config, s, after, t);
    }
    forall q | 0 <= q < |t.boxes|
      ensures BoxInv(config, t, t.boxes[q]) && HeadInv(config, t, t.boxes[q], Spread(t))
    {
      assert Survives(s.boxes[q], after[q]) && BoxInv(config, s, s.boxes[q]) && HeadInv(config, s, s.boxes[q], Spread(s));
    }
  }

  lemma SpreadSurvives(config: Config, s: Fan, after: seq<Mailbox>, t: Fan)
    requires Inv(config, s) && Next(config, s, PowerLoss(after), t) && Spread(s)
    ensures Spread(t)
  {
    forall q | 0 <= q < |t.boxes| ensures |t.events| in t.boxes[q].synced {
      assert Survives(s.boxes[q], after[q]);
    }
  }

  lemma AdmitKeepsInv(config: Config, s: Fan, e: Event, t: Fan)
    requires Inv(config, s) && Next(config, s, Admit(e), t)
    ensures Inv(config, t)
  {
    hide Channel.Envelope, EventDigest;
    var n := |s.events|;
    UpToGrows(n);
    assert HeadOf(config, t.events, n) == HeadOf(config, s.events, n);
    assert HeadOf(config, t.events, n + 1) != HeadOf(config, t.events, n);
    forall q | 0 <= q < |t.boxes|
      ensures BoxInv(config, t, t.boxes[q]) && HeadInv(config, t, t.boxes[q], Spread(t))
    {
      assert BoxInv(config, s, s.boxes[q]) && HeadInv(config, s, s.boxes[q], Spread(s));
    }
  }

  lemma {:induction false} RunKeepsInv(config: Config, run: seq<Fan>, i: nat)
    requires IsRun(config, run) && i < |run|
    ensures Inv(config, run[i])
    decreases |run|
  {
    if |run| == 1 {
      assert UpTo(0) == {};
    } else if i < |run| - 1 {
      RunKeepsInv(config, run[..|run| - 1], i);
    } else {
      RunKeepsInv(config, run[..|run| - 1], |run| - 2);
      var step :| Next(config, run[|run| - 2], step, run[|run| - 1]);
      NextKeepsInv(config, run[|run| - 2], step, run[|run| - 1]);
    }
  }

  lemma RunLength(config: Config, run: seq<Fan>, i: nat)
    requires IsRun(config, run) && i < |run|
    ensures |run[i].boxes| == |config.participants|
  {
    RunKeepsInv(config, run, i);
  }

  // ------------------------------------------------------------ what readers may rely on

  /** The number a HEAD names. */
  function HeadNumber(head: Option<Head>): nat {
    if head.None? then 0 else head.value.n
  }

  /** In every reachable state: if one HEAD names event k, every mailbox holds exactly
      the journal's bytes of events 1..k, durably, and nothing that the journal does
      not hold. */
  lemma HeadMeansEverywhere(config: Config, run: seq<Fan>, i: nat, p: nat, q: nat, k: nat)
    requires IsRun(config, run) && i < |run|
    requires p < |run[i].boxes| && q < |run[i].boxes| && 1 <= k <= HeadNumber(run[i].boxes[p].head)
    ensures HeadNumber(run[i].boxes[p].head) <= |run[i].events|
    ensures k in run[i].boxes[q].synced && k in run[i].boxes[q].feed
    ensures run[i].boxes[q].feed[k] == Channel.Envelope(config, run[i].events[k - 1])
    ensures forall m :: m in run[i].boxes[q].feed.Keys ==> 1 <= m <= |run[i].events|
    ensures run[i].boxes[p].head == HeadOf(config, run[i].events, HeadNumber(run[i].boxes[p].head))
  {
    hide Channel.Envelope, EventDigest;
    RunKeepsInv(config, run, i);
    var s := run[i];
    assert HeadInv(config, s, s.boxes[p], Spread(s)) && BoxInv(config, s, s.boxes[q]);
    if k == |s.events| && !AllPublished(s) {
      assert Spread(s);
    }
  }

  /** In every reachable state the HEADs of two mailboxes differ by at most one, and
      only the last event can be unpublished. */
  lemma HeadsWithinOne(config: Config, run: seq<Fan>, i: nat, p: nat, q: nat)
    requires IsRun(config, run) && i < |run|
    requires p < |run[i].boxes| && q < |run[i].boxes|
    ensures |run[i].events| - 1 <= HeadNumber(run[i].boxes[p].head) <= |run[i].events|
    ensures -1 <= HeadNumber(run[i].boxes[p].head) - HeadNumber(run[i].boxes[q].head) <= 1
    ensures forall n :: 1 <= n < |run[i].events| ==> n in run[i].published
  {
    hide EventDigest;
    RunKeepsInv(config, run, i);
    var s := run[i];
    assert HeadInv(config, s, s.boxes[p], Spread(s)) && HeadInv(config, s, s.boxes[q], Spread(s));
  }

  ghost predicate LossFree(config: Config, s: Fan, t: Fan) {
    exists step: FanStep :: !step.PowerLoss? && Next(config, s, step, t)
  }

  /** No step moves the durable HEAD of a mailbox back, not even a power loss; only a
      power loss moves the visible one back, and then to the durable one. */
  lemma StepNeverRegresses(config: Config, s: Fan, step: FanStep, t: Fan, p: nat)
    requires Inv(config, s) && Next(config, s, step, t) && p < |s.boxes|
    ensures p < |t.boxes| && s.events <= t.events
    ensures HeadNumber(s.boxes[p].safeHead) <= HeadNumber(t.boxes[p].safeHead)
    ensures HeadNumber(s.boxes[p].safeHead) <= HeadNumber(t.boxes[p].head)
    ensures !step.PowerLoss? ==> HeadNumber(s.boxes[p].head) <= HeadNumber(t.boxes[p].head)
    ensures step.PowerLoss? ==> t.boxes[p].head in {s.boxes[p].head, s.boxes[p].safeHead}
  {
    hide Channel.Envelope, EventDigest;
    assert HeadInv(config, s, s.boxes[p], Spread(s));
    match step
    case SetHead(_, n) => Unpublished(config, s, n);
    case PowerLoss(after) => assert Survives(s.boxes[p], after[p]);
    case _ =>
  }

  /** Over a whole run a mailbox's durable HEAD never regresses, and the events that a
      journal holds are never changed. */
  lemma {:induction false} HeadsNeverRegress(config: Config, run: seq<Fan>, i: nat, j: nat, p: nat)
    requires IsRun(config, run) && i <= j < |run|
    requires p < |config.participants|
    ensures p < |run[i].boxes| && p < |run[j].boxes|
    ensures HeadNumber(run[i].boxes[p].safeHead) <= HeadNumber(run[j].boxes[p].safeHead)
    ensures HeadNumber(run[i].boxes[p].safeHead) <= HeadNumber(run[j].boxes[p].head)
    ensures run[i].events <= run[j].events
    decreases |run|
  {
    hide Next, Inv;
    RunKeepsInv(config, run, i);
    RunKeepsInv(config, run, j);
    if j < |run| - 1 {
      HeadsNeverRegress(config, run[..|run| - 1], i, j, p);
    } else if i < j {
      HeadsNeverRegress(config, run[..|run| - 1], i, j - 1, p);
      RunKeepsInv(config, run, j - 1);
      var step :| Next(config, run[j - 1], step, run[j]);
      StepNeverRegresses(config, run[j - 1], step, run[j], p);
    } else {
      assert HeadInv(config, run[i], run[i].boxes[p], Spread(run[i]));
    }
  }

  /** While no power is lost, readers never see a HEAD move back. */
  lemma {:induction false} VisibleHeadNeverRegresses(config: Config, run: seq<Fan>, i: nat, j: nat, p: nat)
    requires IsRun(config, run) && i <= j < |run|
    requires forall m :: i <= m < j ==> LossFree(config, run[m], run[m + 1])
    requires p < |config.participants|
    ensures p < |run[i].boxes| && p < |run[j].boxes|
    ensures HeadNumber(run[i].boxes[p].head) <= HeadNumber(run[j].boxes[p].head)
    decreases j
  {
    hide IsRun, Next, Inv;
    RunLength(config, run, i);
    RunLength(config, run, j);
    if i < j {
      VisibleHeadNeverRegresses(config, run, i, j - 1, p);
      RunKeepsInv(config, run, j - 1);
      assert LossFree(config, run[j - 1], run[j - 1 + 1]);
      var step: FanStep :| !step.PowerLoss? && Next(config, run[j - 1], step, run[j]);
      StepNeverRegresses(config, run[j - 1], step, run[j], p);
    }
  }
}

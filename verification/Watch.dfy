/** Watchers competing for one job: exclusive claims, checks before launch, cleanup before
    any result, crashes, restarts and operators. Each watcher's own steps are one relation;
    what it may rely on is what the steps of all others imply. */
module Watch {
  import opened Wrappers

  datatype Status = Completed | Cancelled | TimedOut | Failed | Rejected | Expired | Unknown

  /** A published result: by whom, and whether only to settle an interrupted claim. */
  datatype Final = Final(author: nat, recovery: bool, status: Status)

  /** What all watchers see of one job: the watcher lock, the claim and its record, the
      STARTED file, the selected result, a cancellation; and how often the command has
      been spawned. */
  datatype Site = Site(
    lock: Option<nat>,
    claim: Option<nat>,
    marked: bool,
    started: bool,
    final: Option<Final>,
    cancel: bool,
    spawned: nat)

  const EMPTY_SITE := Site(None, None, false, false, None, false, 0)

  datatype Pc =
    | Boot | Recovering | Idle | Claiming | Marking
    | Preparing | Launching | Armed | Cleared | Running
    | Ending(status: Status) | Publishing(status: Status)
    | Gone

  /** One watcher process: whether it holds the lock, whether its approval hook or its
      command is alive, the active mark, and whether a cleanup failed. */
  datatype Proc = Proc(pc: Pc, singleton: bool, hook: bool, command: bool, active: bool, failed: bool)

  const NEW_PROC := Proc(Boot, false, false, false, false, false)

  datatype Act =
    | TakeLock | RecoverJob | Serve
    | Look | TakeClaim | Mark
    | StartHook | ReapHook | HookStuck
    | Start | Arm | Clear | Spawn | Refuse(status: Status)
    | Reap(status: Status) | Stuck
    | Degrade | Confirm | Publish | Abandon
    | Release | Crash

  /** What the ownership check looks at of a process. */
  function Idler(singleton: bool): Proc {
    Proc(Idle, singleton, false, false, false, false)
  }

  /** The claim is still this watcher's, its lock too, and nothing was selected yet. */
  predicate OwnerOk(i: nat, s: Site, p: Proc) {
    (p.singleton ==> s.lock == Some(i)) && s.claim == Some(i) && s.marked && s.final.None?
  }

  predicate Step(i: nat, act: Act, s: Site, p: Proc, s': Site, p': Proc) {
    match act
    case TakeLock => p.pc == Boot && s.lock.None? && s' == s.(lock := Some(i)) && p' == p.(pc := Recovering, singleton := true)
    case RecoverJob => p.pc == Recovering && s.claim.Some? && s.final.None? && s' == s.(final := Some(Final(i, true, Unknown))) && p' == p
    case Serve => p.pc in {Boot, Recovering} && s' == s && p' == p.(pc := Idle)
    case Look => p.pc == Idle && s.final.None? && s' == s && p' == p.(pc := Claiming)
    case TakeClaim =>
      && p.pc == Claiming
      && (if s.claim.None? then s' == s.(claim := Some(i)) && p' == p.(pc := Marking) else s' == s && p' == p.(pc := Idle))
    case Mark => p.pc == Marking && s' == s.(marked := true) && p' == p.(pc := Preparing)
    case StartHook => p.pc == Preparing && !p.hook && s' == s && p' == p.(hook := true)
    case ReapHook => p.pc == Preparing && p.hook && s' == s && p' == p.(hook := false)
    case HookStuck => p.pc == Preparing && p.hook && s' == s && p' == p.(pc := Idle, failed := true)
    case Start => p.pc == Preparing && !p.hook && !s.started && s' == s.(started := true) && p' == p.(pc := Launching)
    case Arm => p.pc == Launching && OwnerOk(i, s, p) && s' == s && p' == p.(pc := Armed)
    case Clear => p.pc == Armed && !s.cancel && s' == s && p' == p.(pc := Cleared)
    case Spawn => p.pc == Cleared && s' == s.(spawned := s.spawned + 1) && p' == p.(pc := Running, command := true, active := true)
    case Refuse(status) =>
      && (p.pc in {Launching, Armed, Cleared} || (p.pc == Preparing && !p.hook))
      && status in {Rejected, Expired, Cancelled} && s' == s && p' == p.(pc := Ending(status))
    case Reap(status) =>
      && p.pc == Running && status in {Completed, Cancelled, TimedOut, Failed}
      && s' == s && p' == p.(pc := Ending(status), command := false)
    case Stuck => p.pc == Running && s' == s && p' == p.(pc := Idle, active := false, failed := true)
    case Degrade => p.pc.Ending? && p.active && s' == s && p' == p.(pc := Ending(Failed))
    case Confirm => p.pc.Ending? && OwnerOk(i, s, p) && s' == s && p' == p.(pc := Publishing(p.pc.status))
    case Publish =>
      && p.pc.Publishing? && s.final.None?
      && s' == s.(final := Some(Final(i, false, p.pc.status))) && p' == p.(pc := Idle, active := false)
    case Abandon => (p.pc.Ending? || p.pc.Publishing? || p.pc.Marking?) && s' == s && p' == p.(pc := Idle, active := false)
    case Release =>
      && p.pc == Idle
      && s' == (if !p.failed && s.lock == Some(i) then s.(lock := None) else s)
      && p' == p.(pc := Gone)
    case Crash => s' == s && p' == p.(pc := Gone)
  }

  // ------------------------------------------------------------ one watcher's invariant

  predicate Holding(pc: Pc) {
    pc.Marking? || pc.Preparing? || pc.Launching? || pc.Armed? || pc.Cleared? || pc.Running? || pc.Ending? || pc.Publishing?
  }

  predicate BeforeSpawn(pc: Pc) {
    pc.Marking? || pc.Preparing? || pc.Launching? || pc.Armed? || pc.Cleared?
  }

  /** This watcher published the selected result for its own claim. */
  predicate OwnFinal(i: nat, s: Site) {
    s.final.Some? && s.final.value.author == i && !s.final.value.recovery
  }

  predicate NeverRan(status: Status) {
    status == Rejected || status == Expired
  }

  /** The results of an attempt that launched nothing. */
  predicate IsRefusal(status: Status) {
    NeverRan(status) || status == Cancelled
  }

  /** The result of an attempt that launched the command so often. */
  predicate Tells(status: Status, spawned: nat) {
    if spawned == 0 then IsRefusal(status) else !NeverRan(status)
  }

  predicate Local(i: nat, s: Site, p: Proc) {
    && (Holding(p.pc) ==> s.claim == Some(i) && !OwnFinal(i, s) && !p.failed)
    && (BeforeSpawn(p.pc) ==> s.spawned == 0 && !p.command && !p.active && (p.hook ==> p.pc == Preparing))
    && (p.pc.Launching? || p.pc.Armed? || p.pc.Cleared? ==> s.started)
    && (p.pc == Running ==> s.spawned == 1 && p.command && p.active && !p.hook)
    && (p.pc.Ending? || p.pc.Publishing? ==> !p.hook && !p.command && Tells(p.pc.status, s.spawned) && (p.active <==> s.spawned == 1))
    && (p.active && p.pc != Gone ==> p.pc.Running? || p.pc.Ending? || p.pc.Publishing?)
    && (OwnFinal(i, s) ==>
          s.claim == Some(i) && !p.hook && !p.command && !p.failed && Tells(s.final.value.status, s.spawned))
    && (s.claim != Some(i) ==> !p.hook && !p.command && !p.failed && !p.active)
    && (p.failed ==> p.hook || p.command)
  }

  predicate SiteOk(s: Site) {
    && s.spawned <= 1
    && (s.claim.None? ==> s.spawned == 0 && !s.marked && !s.started && s.final.None?)
    && (s.spawned == 1 ==> s.started)
    && (s.final.Some? && !s.final.value.recovery ==> s.claim == Some(s.final.value.author))
    && (s.final.Some? && s.final.value.recovery ==> s.final.value.status == Unknown)
    && (s.final.Some? && !s.final.value.recovery ==> Tells(s.final.value.status, s.spawned))
  }

  lemma OwnStep(i: nat, act: Act, s: Site, p: Proc, s': Site, p': Proc)
    requires SiteOk(s) && Local(i, s, p) && Step(i, act, s, p, s', p')
    ensures SiteOk(s') && Local(i, s', p')
  {
    hide SiteOk, Local, Step;
    if ToClaim(act) {
      ClaimStep(i, act, s, p, s', p');
    } else if ToLaunch(act) {
      LaunchStep(i, act, s, p, s', p');
    } else {
      EndStep(i, act, s, p, s', p');
    }
  }

  /** Steps up to the claim, and from there to the launch. */
  predicate ToClaim(act: Act) {
    act.TakeLock? || act.RecoverJob? || act.Serve? || act.Look? || act.TakeClaim? || act.Mark?
  }

  predicate ToLaunch(act: Act) {
    act.StartHook? || act.ReapHook? || act.HookStuck? || act.Start? || act.Arm? || act.Clear? || act.Spawn? || act.Refuse?
  }

  lemma ClaimStep(i: nat, act: Act, s: Site, p: Proc, s': Site, p': Proc)
    requires SiteOk(s) && Local(i, s, p) && Step(i, act, s, p, s', p') && ToClaim(act)
    ensures SiteOk(s') && Local(i, s', p')
  {
  }

  lemma LaunchStep(i: nat, act: Act, s: Site, p: Proc, s': Site, p': Proc)
    requires SiteOk(s) && Local(i, s, p) && Step(i, act, s, p, s', p') && ToLaunch(act)
    ensures SiteOk(s') && Local(i, s', p')
  {
  }

  lemma EndStep(i: nat, act: Act, s: Site, p: Proc, s': Site, p': Proc)
    requires SiteOk(s) && Local(i, s, p) && Step(i, act, s, p, s', p') && !ToClaim(act) && !ToLaunch(act)
    ensures SiteOk(s') && Local(i, s', p')
  {
    hide SiteOk, Local, Step;
    if act.Publish? {
      PublishStep(i, s, p, s', p');
    } else if act.Abandon? || act.Release? || act.Crash? {
      LeaveStep(i, act, s, p, s', p');
    } else {
      ReapStep(i, act, s, p, s', p');
    }
  }

  lemma ReapStep(i: nat, act: Act, s: Site, p: Proc, s': Site, p': Proc)
    requires SiteOk(s) && Local(i, s, p) && Step(i, act, s, p, s', p') && (act.Reap? || act.Stuck? || act.Degrade? || act.Confirm?)
    ensures SiteOk(s') && Local(i, s', p')
  {
  }

  lemma LeaveStep(i: nat, act: Act, s: Site, p: Proc, s': Site, p': Proc)
    requires SiteOk(s) && Local(i, s, p) && Step(i, act, s, p, s', p') && (act.Abandon? || act.Release? || act.Crash?)
    ensures SiteOk(s') && Local(i, s', p')
  {
  }

  lemma PublishStep(i: nat, s: Site, p: Proc, s': Site, p': Proc)
    requires SiteOk(s) && Local(i, s, p) && Step(i, Publish, s, p, s', p')
    ensures SiteOk(s') && Local(i, s', p')
  {
  }

  /** What a watcher may rely on while others act. */
  predicate Rely(i: nat, s: Site, s': Site) {
    && (s.claim.Some? ==> s'.claim == s.claim)
    && (s.claim.None? ==> s'.claim != Some(i))
    && (s.claim == Some(i) ==> s'.spawned == s.spawned && s'.started == s.started && s'.marked == s.marked)
    && (s.final.Some? ==> s'.final == s.final)
    && (s.final.None? && s'.final.Some? ==> s'.final.value.author != i)
    && (s'.lock == Some(i) ==> s.lock == Some(i))
    && (s.cancel ==> s'.cancel)
  }

  lemma RelyKeepsLocal(i: nat, s: Site, p: Proc, s': Site)
    requires Local(i, s, p) && Rely(i, s, s')
    ensures Local(i, s', p)
  {
  }

  /** What neither others' steps nor the watcher's own outside an attempt at the job do:
      nothing is withdrawn, no claim of its own appears or is given up, nothing is launched
      under it, and no result of its own appears. */
  predicate Apart(i: nat, s: Site, s': Site) {
    && (s.cancel ==> s'.cancel) && (s.claim.Some? ==> s'.claim == s.claim) && (s.final.Some? ==> s'.final == s.final)
    && (if s.claim == Some(i) then s'.spawned == s.spawned else s'.claim != Some(i))
    && (OwnFinal(i, s') ==> OwnFinal(i, s))
  }

  lemma RelyIsApart(i: nat, s: Site, s': Site)
    ensures Rely(i, s, s') ==> Apart(i, s, s')
  {
  }

  lemma ApartOn(i: nat, s: Site, s': Site, s'': Site)
    ensures Apart(i, s, s') && Apart(i, s', s'') ==> Apart(i, s, s'')
  {
  }

  /** What others do, however long; and who is not the owner will not be. */
  lemma RelyOn(i: nat, s: Site, s': Site, s'': Site, p: Proc)
    ensures Rely(i, s, s') && Rely(i, s', s'') ==> Rely(i, s, s'')
    ensures Rely(i, s, s') && !OwnerOk(i, s, p) ==> !OwnerOk(i, s', p)
    ensures Rely(i, s, s)
    ensures Rely(i, s, s') && s.claim == Some(i) ==> s'.claim == s.claim && s'.spawned == s.spawned
  {
  }

  /** Every step of one watcher is within what all others rely on. */
  lemma OthersRely(i: nat, j: nat, act: Act, s: Site, p: Proc, s': Site, p': Proc)
    requires i != j && Local(j, s, p) && Step(j, act, s, p, s', p')
    ensures Rely(i, s, s')
  {
  }

  // ------------------------------------------------------------ all watchers together

  datatype World = World(site: Site, procs: map<nat, Proc>)

  datatype Move =
    | Own(i: nat, act: Act)
    | Join(i: nat)       // a new watcher process, under an identity never used before
    | Ask                // a cancellation is requested
    | Unlock             // the operator removes the lock

  predicate Next(w: World, move: Move, w': World) {
    match move
    case Own(i, act) =>
      i in w.procs && i in w'.procs && Step(i, act, w.site, w.procs[i], w'.site, w'.procs[i]) && w'.procs == w.procs[i := w'.procs[i]]
    case Join(i) => i !in w.procs && w' == w.(procs := w.procs[i := NEW_PROC])
    case Ask => w' == w.(site := w.site.(cancel := true))
    case Unlock => w' == w.(site := w.site.(lock := None))
  }

  /** An identity that no process has used yet has left no trace. */
  predicate Unused(w: World) {
    && (w.site.claim.Some? ==> w.site.claim.value in w.procs)
    && (w.site.final.Some? ==> w.site.final.value.author in w.procs)
  }

  predicate WorldInv(w: World) {
    SiteOk(w.site) && Unused(w) && forall i :: i in w.procs ==> Local(i, w.site, w.procs[i])
  }

  lemma NextKeepsInv(w: World, move: Move, w': World)
    requires WorldInv(w) && Next(w, move, w')
    ensures WorldInv(w')
  {
    hide Local, Rely, Step, SiteOk;
    match move
    case Own(j, act) =>
      OwnStep(j, act, w.site, w.procs[j], w'.site, w'.procs[j]);
      forall i | i in w'.procs ensures Local(i, w'.site, w'.procs[i]) {
        if i != j {
          OthersRely(i, j, act, w.site, w.procs[j], w'.site, w'.procs[j]);
          RelyKeepsLocal(i, w.site, w.procs[i], w'.site);
        }
      }
      TracesAreOwn(j, act, w.site, w.procs[j], w'.site, w'.procs[j]);
    case Join(i) => NewIsLocal(i, w.site);
    case _ => OutsideKeeps(w, move, w');
  }

  lemma TracesAreOwn(i: nat, act: Act, s: Site, p: Proc, s': Site, p': Proc)
    requires Step(i, act, s, p, s', p')
    ensures s'.claim == s.claim || s'.claim == Some(i)
    ensures s'.final == s.final || (s'.final.Some? && s'.final.value.author == i)
  {
  }

  lemma NewIsLocal(i: nat, s: Site)
    requires s.claim != Some(i) && (s.final.Some? ==> s.final.value.author != i)
    ensures Local(i, s, NEW_PROC)
  {
  }

  lemma OutsideKeeps(w: World, move: Move, w': World)
    requires WorldInv(w) && Next(w, move, w') && (move.Ask? || move.Unlock?)
    ensures WorldInv(w')
  {
    forall i | i in w'.procs ensures Local(i, w'.site, w'.procs[i]) {
      RelyKeepsLocal(i, w.site, w.procs[i], w'.site);
    }
  }

  ghost predicate CanMove(w: World, w': World) {
    exists move: Move :: Next(w, move, w')
  }

  ghost predicate IsRun(run: seq<World>) {
    |run| > 0 &&
    if |run| == 1 then run[0] == World(EMPTY_SITE, map[])
    else IsRun(run[..|run| - 1]) && CanMove(run[|run| - 2], run[|run| - 1])
  }

  lemma {:induction false} RunKeepsInv(run: seq<World>, a: nat, b: nat)
    requires IsRun(run) && a <= b < |run|
    ensures WorldInv(run[a]) && WorldInv(run[b])
    ensures run[a].site.spawned <= run[b].site.spawned
    ensures run[a].site.final.Some? ==> run[b].site.final == run[a].site.final
    decreases |run|
  {
    hide Next, WorldInv;
    if |run| == 1 {
      assert WorldInv(run[0]) by { EmptyInv(); }
    } else if b < |run| - 1 {
      RunKeepsInv(run[..|run| - 1], a, b);
    } else {
      var past := run[..|run| - 1];
      RunKeepsInv(past, if a < b then a else b - 1, b - 1);
      var move: Move :| Next(run[b - 1], move, run[b]);
      NextKeepsInv(run[b - 1], move, run[b]);
      FirstWins(run[b - 1], move, run[b]);
    }
  }

  lemma EmptyInv()
    ensures WorldInv(World(EMPTY_SITE, map[]))
  {
  }

  lemma FirstWins(w: World, move: Move, w': World)
    requires Next(w, move, w')
    ensures w.site.spawned <= w'.site.spawned
    ensures w.site.final.Some? ==> w'.site.final == w.site.final
  {
  }

  // ------------------------------------------------------------ main results

  /** Across any number of racing, crashing and restarting watchers the command is spawned
      at most once. */
  lemma SpawnedAtMostOnce(run: seq<World>, k: nat)
    requires IsRun(run) && k < |run|
    ensures run[k].site.spawned <= 1
  {
    hide IsRun;
    RunKeepsInv(run, k, k);
  }

  /** A result REJECTED or EXPIRED means that the command never was and never will be
      spawned; the selected result never changes. */
  lemma RejectedNeverRan(run: seq<World>, a: nat, b: nat)
    requires IsRun(run) && a <= b < |run|
    requires run[a].site.final.Some? && NeverRan(run[a].site.final.value.status)
    ensures run[b].site.final == run[a].site.final && run[b].site.spawned == 0
  {
    hide IsRun;
    RunKeepsInv(run, a, b);
  }

  /** A result that the claim's owner published tells whether the command ever ran: with
      COMPLETED, TIMED_OUT or FAILED it was launched exactly once, and if it was not
      launched the result is REJECTED, EXPIRED or CANCELLED; and so it stays. */
  lemma {:induction false} ResultTellsLaunch(run: seq<World>, a: nat, b: nat)
    requires IsRun(run) && a <= b < |run|
    requires run[a].site.final.Some? && !run[a].site.final.value.recovery
    ensures run[b].site.final == run[a].site.final
    ensures run[a].site.final.value.status in {Completed, TimedOut, Failed} ==> run[a].site.spawned == run[b].site.spawned == 1
    ensures run[b].site.spawned == 0 ==> run[a].site.final.value.status in {Rejected, Expired, Cancelled}
  {
    hide IsRun;
    RunKeepsInv(run, a, b);
  }

  /** A result that the claim's owner published was published after every process it had
      spawned was reaped, and from then on it has none; an owner whose cleanup failed has
      published nothing. */
  lemma FinalAfterReaping(run: seq<World>, a: nat, b: nat)
    requires IsRun(run) && a <= b < |run|
    requires run[a].site.final.Some? && !run[a].site.final.value.recovery
    ensures var i := run[a].site.final.value.author;
            && i in run[b].procs && run[b].site.claim == Some(i)
            && !run[b].procs[i].hook && !run[b].procs[i].command && !run[b].procs[i].failed
  {
    hide IsRun;
    RunKeepsInv(run, a, b);
  }

  /** A cancellation is there, and the watcher has not passed its last look for one. */
  predicate Barred(i: nat, s: Site, p: Proc) {
    && s.cancel && !p.pc.Cleared? && !p.pc.Running? && (p.pc == Gone || !p.active)
    && (p.pc.Ending? || p.pc.Publishing? ==> IsRefusal(p.pc.status))
    && (OwnFinal(i, s) ==> IsRefusal(s.final.value.status))
  }

  lemma StaysBarred(w: World, move: Move, w': World, i: nat)
    requires WorldInv(w) && Next(w, move, w') && i in w.procs && Barred(i, w.site, w.procs[i])
    ensures i in w'.procs && Barred(i, w'.site, w'.procs[i])
    ensures move != Own(i, Spawn)
  {
    hide SiteOk, Unused, Step, Local, Barred;
    match move
    case Own(j, act) =>
      if j == i {
        BarredStep(i, act, w.site, w.procs[i], w'.site, w'.procs[i]);
      } else {
        OthersRely(i, j, act, w.site, w.procs[j], w'.site, w'.procs[j]);
        BarredByOthers(i, w.site, w.procs[i], w'.site);
      }
    case _ => BarredByOthers(i, w.site, w.procs[i], w'.site);
  }

  lemma BarredStep(i: nat, act: Act, s: Site, p: Proc, s': Site, p': Proc)
    requires Barred(i, s, p) && Step(i, act, s, p, s', p')
    ensures Barred(i, s', p') && act != Spawn
  {
    hide Barred, Step;
    if ToClaim(act) {
      BarredToClaim(i, act, s, p, s', p');
    } else if ToLaunch(act) {
      BarredToLaunch(i, act, s, p, s', p');
    } else {
      BarredToEnd(i, act, s, p, s', p');
    }
  }

  lemma BarredToClaim(i: nat, act: Act, s: Site, p: Proc, s': Site, p': Proc)
    requires Barred(i, s, p) && Step(i, act, s, p, s', p') && ToClaim(act)
    ensures Barred(i, s', p')
  {
  }

  lemma BarredToLaunch(i: nat, act: Act, s: Site, p: Proc, s': Site, p': Proc)
    requires Barred(i, s, p) && Step(i, act, s, p, s', p') && ToLaunch(act)
    ensures Barred(i, s', p') && act != Spawn
  {
  }

  lemma BarredToEnd(i: nat, act: Act, s: Site, p: Proc, s': Site, p': Proc)
    requires Barred(i, s, p) && Step(i, act, s, p, s', p') && !ToClaim(act) && !ToLaunch(act)
    ensures Barred(i, s', p')
  {
  }

  lemma BarredByOthers(i: nat, s: Site, p: Proc, s': Site)
    requires Barred(i, s, p)
    requires (s.cancel ==> s'.cancel) && (s'.final == s.final || (s.final.None? && s'.final.Some? && s'.final.value.author != i))
    ensures Barred(i, s', p)
  {
  }

  /** Once a cancellation is there, a watcher that has still to look for one, or whose last
      look found it, never launches the command, whatever it and all others do for the rest
      of the run; what it publishes itself is REJECTED, EXPIRED or CANCELLED. */
  lemma {:induction false} CancelledIsNotLaunched(run: seq<World>, a: nat, b: nat, i: nat)
    requires IsRun(run) && a <= b < |run| && i in run[a].procs && run[a].site.cancel
    requires var pc := run[a].procs[i].pc;
             pc.Boot? || pc.Recovering? || pc.Idle? || pc.Claiming? || pc.Marking? || pc.Preparing? || pc.Launching? || pc.Armed?
    requires !OwnFinal(i, run[a].site)
    ensures i in run[b].procs && !run[b].procs[i].pc.Running?
    ensures forall w' :: !Next(run[b], Own(i, Spawn), w')
    ensures OwnFinal(i, run[b].site) ==> run[b].site.final.value.status in {Rejected, Expired, Cancelled}
  {
    hide IsRun, Next;
    RunKeepsInv(run, a, b);
    assert Local(i, run[a].site, run[a].procs[i]);
    BarredOn(run, a, b, i);
    forall w' ensures !Next(run[b], Own(i, Spawn), w') {
      if Next(run[b], Own(i, Spawn), w') { StaysBarred(run[b], Own(i, Spawn), w', i); }
    }
  }

  lemma {:induction false} BarredOn(run: seq<World>, a: nat, b: nat, i: nat)
    requires IsRun(run) && a <= b < |run| && i in run[a].procs && Barred(i, run[a].site, run[a].procs[i])
    ensures i in run[b].procs && Barred(i, run[b].site, run[b].procs[i])
    decreases b
  {
    hide IsRun, Next, Barred, WorldInv;
    if a < b {
      BarredOn(run, a, b - 1, i);
      RunKeepsInv(run, b - 1, b);
      RunStep(run, b);
      var move: Move :| Next(run[b - 1], move, run[b]);
      StaysBarred(run[b - 1], move, run[b], i);
    }
  }

  lemma {:induction false} RunStep(run: seq<World>, k: nat)
    requires IsRun(run) && 0 < k < |run|
    ensures CanMove(run[k - 1], run[k])
    decreases |run|
  {
    if k < |run| - 1 { RunStep(run[..|run| - 1], k); }
  }

  lemma NobodyClears(w: World, move: Move, w': World)
    requires Next(w, move, w') && w.site.cancel && w.site.spawned == 0 && forall i :: i in w.procs ==> !w.procs[i].pc.Cleared?
    ensures w'.site.cancel && w'.site.spawned == 0 && forall i :: i in w'.procs ==> !w'.procs[i].pc.Cleared?
  {
    hide Step;
    if move.Own? { ClearsNothing(move.i, move.act, w.site, w.procs[move.i], w'.site, w'.procs[move.i]); }
  }

  lemma ClearsNothing(i: nat, act: Act, s: Site, p: Proc, s': Site, p': Proc)
    requires Step(i, act, s, p, s', p') && s.cancel && !p.pc.Cleared?
    ensures s'.cancel && s'.spawned == s.spawned && !p'.pc.Cleared?
  {
  }

  /** So if nobody has passed its last look by then, the command never runs at all. */
  lemma {:induction false} CancelledNeverRuns(run: seq<World>, a: nat, b: nat)
    requires IsRun(run) && a <= b < |run| && run[a].site.cancel && run[a].site.spawned == 0
    requires forall i :: i in run[a].procs ==> !run[a].procs[i].pc.Cleared?
    ensures run[b].site.cancel && run[b].site.spawned == 0 && forall i :: i in run[b].procs ==> !run[b].procs[i].pc.Cleared?
    decreases b
  {
    hide IsRun, Next;
    if a < b {
      CancelledNeverRuns(run, a, b - 1);
      RunStep(run, b);
      var move: Move :| Next(run[b - 1], move, run[b]);
      NobodyClears(run[b - 1], move, run[b]);
    }
  }

  /** A step that is not the operator's removal of the lock. */
  ghost predicate CanMoveLocked(w: World, w': World) {
    exists move: Move :: !move.Unlock? && Next(w, move, w')
  }

  /** The operator does not remove the lock from one state to another. */
  ghost predicate LockLeft(run: seq<World>, a: nat, b: nat)
    requires a <= b < |run|
  {
    forall k {:trigger run[k]} :: a <= k < b ==> CanMoveLocked(run[k], run[k + 1])
  }

  /** No step but the operator's takes a failed watcher's lock or gives it away. */
  lemma LockStays(w: World, move: Move, w': World, i: nat)
    requires WorldInv(w) && Next(w, move, w') && !move.Unlock?
    requires i in w.procs && w.procs[i].failed && w.site.lock == Some(i)
    ensures i in w'.procs && w'.procs[i].failed && w'.site.lock == Some(i)
    ensures w'.procs[i].hook == w.procs[i].hook && w'.procs[i].command == w.procs[i].command
  {
    hide SiteOk, Step, Local, Unused;
    if move.Own? {
      if move.i == i {
        OwnLockStays(i, move.act, w.site, w.procs[i], w'.site, w'.procs[i]);
      } else {
        OthersLeaveLock(move.i, move.act, w.site, w.procs[move.i], w'.site, w'.procs[move.i], i);
      }
    }
  }

  lemma OwnLockStays(i: nat, act: Act, s: Site, p: Proc, s': Site, p': Proc)
    requires Local(i, s, p) && Step(i, act, s, p, s', p') && p.failed && s.lock == Some(i)
    ensures p'.failed && s'.lock == Some(i) && p'.hook == p.hook && p'.command == p.command
  {
  }

  lemma OthersLeaveLock(j: nat, act: Act, s: Site, p: Proc, s': Site, p': Proc, i: nat)
    requires i != j && Step(j, act, s, p, s', p') && s.lock == Some(i)
    ensures s'.lock == Some(i)
  {
  }

  /** Once a cleanup failed in a watcher that holds the lock, it holds the lock for the rest
      of the run, whatever it, all other watchers and crashes do, until an operator removes
      it: no other watcher can take the lock, what could not be reaped is not forgotten,
      and that watcher publishes nothing. */
  lemma {:induction false} FailedKeepsLock(run: seq<World>, a: nat, b: nat, i: nat)
    requires IsRun(run) && a <= b < |run| && LockLeft(run, a, b)
    requires i in run[a].procs && run[a].procs[i].failed && run[a].site.lock == Some(i)
    ensures run[b].site.lock == Some(i) && i in run[b].procs && run[b].procs[i].failed
    ensures run[b].procs[i].hook || run[b].procs[i].command
    ensures !OwnFinal(i, run[b].site)
    ensures forall j, w' :: !Next(run[b], Own(j, TakeLock), w')
    decreases b
  {
    hide IsRun, Local, SiteOk, Next;
    RunKeepsInv(run, a, b);
    if a < b {
      FailedKeepsLock(run, a, b - 1, i);
      RunKeepsInv(run, b - 1, b);
      assert CanMoveLocked(run[b - 1], run[b - 1 + 1]);
      var move: Move :| !move.Unlock? && Next(run[b - 1], move, run[b]);
      LockStays(run[b - 1], move, run[b], i);
    }
    FailedFacts(i, run[b].site, run[b].procs[i]);
    forall j, w' ensures !Next(run[b], Own(j, TakeLock), w') {
      LockIsTaken(run[b], j, w');
    }
  }

  lemma FailedFacts(i: nat, s: Site, p: Proc)
    requires Local(i, s, p) && p.failed
    ensures (p.hook || p.command) && !OwnFinal(i, s)
  {
  }

  lemma LockIsTaken(w: World, j: nat, w': World)
    requires w.site.lock.Some?
    ensures !Next(w, Own(j, TakeLock), w')
  {
  }

  // ------------------------------------------------------------ one watcher at work

  datatype Seen = Seen(site: Site, proc: Proc)

  ghost predicate LocalMove(i: nat, a: Seen, b: Seen) {
    (exists act: Act :: Step(i, act, a.site, a.proc, b.site, b.proc)) || (a.proc == b.proc && Rely(i, a.site, b.site))
  }

  /** A watcher's own steps, with anything between them that others may do. */
  ghost predicate LocalRun(i: nat, run: seq<Seen>) {
    |run| > 0 && (|run| > 1 ==> LocalRun(i, run[..|run| - 1]) && LocalMove(i, run[|run| - 2], run[|run| - 1]))
  }

  /** How the outside decides: the approval hook and whether it can be reaped, the time and
      policy checks, the launch, the end of the command, and whether it can be reaped. */
  datatype Script = Script(
    stopping: bool,
    verified: bool,
    hook: bool, approved: bool, hookReaped: bool,
    late: Option<Status>,
    launched: bool,
    ending: Status,
    reaped: bool,
    collected: bool)

  predicate GoodScript(script: Script) {
    && (script.late.Some? ==> NeverRan(script.late.value))
    && script.ending in {Completed, Cancelled, TimedOut, Failed}
  }

  /** The checks before a launch, in their order. */
  function Checks(script: Script, owner: bool, cancel: bool): Option<Status> {
    if !owner then Some(Rejected) else if script.stopping || cancel then Some(Cancelled) else script.late
  }

  /** Whether the attempt gets as far as the launch. */
  predicate Reaches(script: Script, cancel: bool) {
    script.verified && Checks(script, true, cancel).None? && (script.hook ==> script.hookReaped && script.approved)
  }

  /** The result of an undisturbed attempt; none when a cleanup failed. */
  function Verdict(script: Script, cancel: bool): Option<Status> {
    if !script.verified then Some(Rejected)
    else if Checks(script, true, cancel).Some? then Checks(script, true, cancel)
    else if script.hook && !script.hookReaped then None
    else if script.hook && !script.approved then Some(Rejected)
    else if !script.launched then Some(Rejected)
    else if !script.reaped then None
    else if !script.collected then Some(Failed)
    else Some(script.ending)
  }

  /** What a launch needs besides the last looks at the job itself. */
  predicate LaunchAllowed(script: Script, cancel: bool) {
    !script.stopping && !cancel && script.late.None? && script.launched
  }

  /** What a launch needs: a verified request, approval, no stop, time, and a command that
      starts. */
  predicate MayLaunch(script: Script, cancel: bool) {
    script.verified && (script.hook ==> script.approved && script.hookReaped) && LaunchAllowed(script, cancel)
  }

  /** What an attempt may do to the job, whatever others do meanwhile. If a cancellation is
      there when it begins, it launches nothing, and a result of its own is CANCELLED, or
      REJECTED for a request that is not verified. It launches only what it may; and its
      own result is a refusal if it launched nothing, and otherwise how the command ended,
      or FAILED if the output could not be collected. */
  predicate Warranted(i: nat, script: Script, s: Site, s': Site) {
    var own := OwnFinal(i, s') && !OwnFinal(i, s);
    && (s.claim.Some? ==> s'.claim == s.claim) && (own ==> s'.claim == Some(i))
    && (s.cancel && s'.claim == Some(i) ==> s'.spawned == s.spawned)
    && (s.cancel && own ==> s'.final.value.status == if script.verified then Cancelled else Rejected)
    && (s'.claim == Some(i) && s'.spawned != s.spawned ==> MayLaunch(script, s.cancel))
    && (own && s'.spawned == 0 ==> s'.final.value.status in {Rejected, Expired, Cancelled})
    && (own && s'.spawned != 0 ==> s'.final.value.status == if script.collected then script.ending else Failed)
  }

  lemma NothingTried(i: nat, script: Script, s: Site, s': Site)
    ensures Apart(i, s, s') ==> Warranted(i, script, s, s')
  {
  }

  lemma WarrantedWithin(i: nat, script: Script, first: Site, s: Site, s': Site, last: Site)
    requires Apart(i, first, s) && Warranted(i, script, s, s') && Apart(i, s', last)
    requires (first.claim.None? ==> first.spawned == 0) && (s.claim.None? ==> s.spawned == 0)
    ensures Warranted(i, script, first, last)
  {
  }

  /** What an undisturbed attempt leaves behind. */
  function Attempted(i: nat, s: Site, script: Script): Site {
    var verdict := Verdict(script, s.cancel);
    s.(claim := Some(i), marked := true, started := Reaches(script, s.cancel),
       spawned := if Reaches(script, s.cancel) && script.launched then 1 else 0,
       final := if verdict.Some? then Some(Final(i, false, verdict.value)) else None)
  }

  /** An undisturbed attempt at an untouched job, without the terms that define it. It
      launches exactly what it may; a request that is not verified, a cancellation, a time
      check, a refused approval and a command that does not start each have their result,
      in this order; and there is no result exactly if a cleanup failed. */
  lemma {:induction false} AttemptMeans(i: nat, s: Site, script: Script)
    requires GoodScript(script) && s.claim.None? && !s.started && s.final.None? && s.spawned == 0
    ensures var t := Attempted(i, s, script);
            && t == s.(claim := Some(i), marked := true, started := t.started, spawned := t.spawned, final := t.final)
            && t.spawned == (if MayLaunch(script, s.cancel) then 1 else 0)
            && (t.started <==> script.verified && !script.stopping && !s.cancel && script.late.None? && (script.hook ==> script.hookReaped && script.approved))
            && (t.final.Some? ==> t.final.value.author == i && !t.final.value.recovery)
            && (!script.verified ==> t.final == Some(Final(i, false, Rejected)))
            && (script.verified && (script.stopping || s.cancel) ==> t.final == Some(Final(i, false, Cancelled)))
            && (script.verified && !script.stopping && !s.cancel && script.late.Some? ==> t.final == Some(Final(i, false, script.late.value)))
            && (script.verified && !script.stopping && !s.cancel && script.late.None? && script.hook && script.hookReaped && !script.approved ==>
                  t.final == Some(Final(i, false, Rejected)))
            && (t.started && !script.launched ==> t.final == Some(Final(i, false, Rejected)))
            && (t.spawned == 1 && script.reaped ==> t.final == Some(Final(i, false, if script.collected then script.ending else Failed)))
            && (t.final.None? <==>
                  || (t.spawned == 1 && !script.reaped)
                  || (script.verified && !script.stopping && !s.cancel && script.late.None? && script.hook && !script.hookReaped))
            && (t.final.None? <==> Verdict(script, s.cancel).None?)
  {
  }

  class Watcher {
    const id: nat
    const others: (nat, Site) -> Site
    var site: Site
    var clock: nat
    var singleton: bool
    var hook: bool
    var command: bool
    var active: bool
    var cleanupFailed: bool
    ghost var pc: Pc
    ghost var trace: seq<Seen>

    ghost function View(): Proc
      reads this`pc, this`singleton, this`hook, this`command, this`active, this`cleanupFailed
    {
      Proc(pc, singleton, hook, command, active, cleanupFailed)
    }

    /** Nobody else acts. */
    ghost predicate Alone() {
      forall k, s {:trigger others(k, s)} :: others(k, s) == s
    }

    ghost predicate Valid()
      reads this
    {
      && (forall k, s {:trigger others(k, s)} :: SiteOk(s) ==> Rely(id, s, others(k, s)) && SiteOk(others(k, s)))
      && LocalRun(id, trace) && trace[|trace| - 1] == Seen(site, View())
      && SiteOk(site) && Local(id, site, View())
    }

    constructor (id: nat, site: Site, others: (nat, Site) -> Site)
      requires SiteOk(site) && site.claim != Some(id) && (site.final.Some? ==> site.final.value.author != id)
      requires forall k, s {:trigger others(k, s)} :: SiteOk(s) ==> Rely(id, s, others(k, s)) && SiteOk(others(k, s))
      ensures Valid() && pc == Boot && this.id == id
    {
      this.id, this.site, this.others, clock := id, site, others, 0;
      singleton, hook, command, active, cleanupFailed := false, false, false, false, false;
      pc := Boot;
      trace := [Seen(site, NEW_PROC)];
    }

    /** Records a step of this watcher. */
    ghost method Note(before: Seen, act: Act)
      requires LocalRun(id, trace) && trace[|trace| - 1] == before && SiteOk(before.site) && Local(id, before.site, before.proc)
      requires Step(id, act, before.site, before.proc, site, View())
      requires forall k, s {:trigger others(k, s)} :: SiteOk(s) ==> Rely(id, s, others(k, s)) && SiteOk(others(k, s))
      modifies this`trace
      ensures Valid() && trace == old(trace) + [Seen(site, View())]
    {
      hide Step, Local, SiteOk, Rely;
      OwnStep(id, act, before.site, before.proc, site, View());
      trace := trace + [Seen(site, View())];
      assert trace[..|trace| - 1] == old(trace);
    }

    /** Others act. */
    method Pause()
      requires Valid()
      modifies this`site, this`clock, this`trace
      ensures Valid() && old(trace) <= trace && Rely(id, old(site), site)
      ensures Alone() ==> site == old(site)
      ensures old(site).cancel ==> site.cancel
    {
      hide Step, Local, SiteOk;
      RelyKeepsLocal(id, site, View(), others(clock, site));
      site := others(clock, site);
      clock := clock + 1;
      trace := trace + [Seen(site, View())];
      assert trace[..|trace| - 1] == old(trace);
    }

    /** An exclusive directory creation. */
    method TakeClaim() returns (ok: bool)
      requires Valid() && pc == Claiming
      modifies this`site, this`clock, this`pc, this`trace
      ensures Valid() && old(trace) <= trace && pc == (if ok then Marking else Idle)
      ensures Alone() ==> (ok <==> old(site).claim.None?) && site == if ok then old(site).(claim := Some(id)) else old(site)
      ensures (old(site).cancel ==> site.cancel) && (if ok then old(site).claim.None? else Rely(id, old(site), site))
    {
      hide Local, LocalRun, SiteOk, Rely;
      ghost var first := site;
      Pause();
      RelyIsApart(id, first, site);
      ghost var before := Seen(site, View());
      if site.claim.Some? {
        pc := Idle;
        Note(before, Act.TakeClaim);
        return false;
      }
      site := site.(claim := Some(id));
      pc := Marking;
      Note(before, Act.TakeClaim);
      return true;
    }

    /** The record in the claim directory. */
    method MarkClaim()
      requires Valid() && pc == Marking
      modifies this`site, this`clock, this`pc, this`trace
      ensures Valid() && old(trace) <= trace && pc == Preparing && !hook
      ensures Alone() ==> site == old(site).(marked := true)
      ensures old(site).cancel ==> site.cancel
    {
      hide Local, LocalRun, SiteOk, Rely;
      NoHookYet();
      Pause();
      ghost var before := Seen(site, View());
      site := site.(marked := true);
      pc := Preparing;
      Note(before, Act.Mark);
    }

    lemma NoHookYet()
      requires Valid() && pc == Marking
      ensures !hook
    {
    }

    method Claim() returns (ok: bool)
      requires Valid() && pc == Claiming
      modifies this`site, this`clock, this`pc, this`trace
      ensures Valid() && old(trace) <= trace && pc == (if ok then Preparing else Idle) && (ok ==> !hook)
      ensures Alone() ==> (ok <==> old(site).claim.None?) && (ok ==> site == old(site).(claim := Some(id), marked := true))
      ensures (old(site).cancel ==> site.cancel) && (if ok then old(site).claim.None? else Rely(id, old(site), site))
    {
      hide *;
      ok := TakeClaim();
      if ok { MarkClaim(); }
    }

    /** Gives the attempt up before anything was spawned. */
    method Refuse(status: Status)
      requires Valid() && (pc.Launching? || pc.Armed? || pc.Cleared? || (pc.Preparing? && !hook)) && status in {Rejected, Expired, Cancelled}
      modifies this`pc, this`trace
      ensures Valid() && old(trace) <= trace && pc == Ending(status)
    {
      hide Local, LocalRun, SiteOk, Rely;
      ghost var before := Seen(site, View());
      pc := Ending(status);
      Note(before, Act.Refuse(status));
    }

    /** The ordered checks before a launch: ownership, cancellation, time and policy. */
    method Prelaunch(script: Script) returns (stop: Option<Status>)
      requires Valid() && GoodScript(script)
      modifies this`site, this`clock, this`trace
      ensures Valid() && old(trace) <= trace && (stop.Some? ==> stop.value in {Rejected, Expired, Cancelled})
      ensures stop.None? ==> script.late.None? && !script.stopping && !old(site).cancel
      ensures Rely(id, old(site), site)
      ensures old(site).cancel && OwnerOk(id, site, Idler(singleton)) ==> stop == Some(Cancelled)
      ensures Alone() ==> site == old(site) && stop == Checks(script, OwnerOk(id, site, Idler(singleton)), site.cancel)
    {
      hide Step, Local, LocalRun, SiteOk;
      ghost var first := site;
      Pause();
      ghost var second := site;
      if !OwnerOk(id, site, Idler(singleton)) { return Some(Rejected); }
      Pause();
      RelyOn(id, first, second, site, Idler(singleton));
      if script.stopping || site.cancel { return Some(Cancelled); }
      return script.late;
    }

    /** The hook starts; it is always killed and reaped, or the cleanup failed. */
    method StartHook()
      requires Valid() && pc == Preparing && !hook
      modifies this`hook, this`trace
      ensures Valid() && old(trace) <= trace && hook
    {
      hide Local, LocalRun, SiteOk, Rely;
      ghost var before := Seen(site, View());
      hook := true;
      Note(before, Act.StartHook);
    }

    method EndHook(reaped: bool)
      requires Valid() && pc == Preparing && hook
      modifies this`hook, this`cleanupFailed, this`pc, this`trace
      ensures Valid() && old(trace) <= trace && (if reaped then pc == Preparing && !hook else pc == Idle && cleanupFailed)
      ensures reaped ==> cleanupFailed == old(cleanupFailed)
    {
      hide Local, LocalRun, SiteOk, Rely;
      ghost var before := Seen(site, View());
      if reaped {
        hook := false;
        Note(before, Act.ReapHook);
      } else {
        cleanupFailed := true;
        pc := Idle;
        Note(before, Act.HookStuck);
      }
    }

    /** Runs the approval hook under the same checks as the launch. */
    method Approve(script: Script) returns (stop: Option<Status>, clean: bool)
      requires Valid() && pc == Preparing && !hook && GoodScript(script)
      modifies this
      ensures Valid() && old(trace) <= trace && !active && (if clean then pc == Preparing else pc == Idle && cleanupFailed)
      ensures clean ==> !hook && (stop.Some? ==> stop.value in {Rejected, Expired, Cancelled})
      ensures clean <==> !script.hook || script.hookReaped
      ensures cleanupFailed <==> old(cleanupFailed) || !clean
      ensures !script.hook ==> stop.None?
      ensures script.hook && clean && stop.None? ==> script.approved
      ensures Rely(id, old(site), site)
      ensures singleton == old(singleton)
      ensures Alone() ==> site == old(site)
      ensures Alone() && script.hook ==>
                var checks := Checks(script, OwnerOk(id, site, Idler(singleton)), site.cancel);
                stop == if checks.None? && !script.approved then Some(Rejected) else checks
    {
      hide Valid, Alone, Rely, GoodScript;
      NotActive();
      RelyOn(id, site, site, site, View());
      if !script.hook { return None, true; }
      StartHook();
      stop := Prelaunch(script);
      if stop.None? && !script.approved { stop := Some(Rejected); }
      EndHook(script.hookReaped);
      return stop, script.hookReaped;
    }

    lemma NotActive()
      requires Valid()
      ensures BeforeSpawn(pc) ==> !active
      ensures pc.Preparing? ==> BeforeSpawn(pc)
    {
    }

    /** An exclusive creation of STARTED. */
    method Start() returns (ok: bool)
      requires Valid() && pc == Preparing && !hook
      modifies this`site, this`clock, this`pc, this`trace
      ensures Valid() && old(trace) <= trace && pc == (if ok then Launching else Preparing)
      ensures Alone() ==> (ok <==> !old(site).started) && (ok ==> site == old(site).(started := true))
      ensures old(site).cancel ==> site.cancel
    {
      hide Local, LocalRun, SiteOk, Rely;
      Pause();
      if site.started { return false; }
      ghost var before := Seen(site, View());
      site := site.(started := true);
      pc := Launching;
      Note(before, Act.Start);
      return true;
    }

    /** The last ownership check before the launch. */
    method Arm() returns (ok: bool)
      requires Valid() && pc == Launching
      modifies this`site, this`clock, this`pc, this`trace
      ensures Valid() && old(trace) <= trace && pc == (if ok then Armed else Launching)
      ensures Alone() ==> site == old(site) && (ok <==> OwnerOk(id, site, Idler(singleton)))
    {
      hide Local, LocalRun, SiteOk, Rely;
      Pause();
      if !OwnerOk(id, site, Idler(singleton)) { return false; }
      ghost var before := Seen(site, View());
      pc := Armed;
      Note(before, Act.Arm);
      return true;
    }

    /** The last look for a stop or a cancellation. */
    method LastLook(stopping: bool) returns (clear: bool)
      requires Valid() && pc == Armed
      modifies this`site, this`clock, this`pc, this`trace
      ensures Valid() && old(trace) <= trace && pc == (if clear then Cleared else Armed)
      ensures clear ==> !stopping && !old(site).cancel
      ensures Alone() ==> site == old(site) && (clear <==> !stopping && !site.cancel)
    {
      hide Local, LocalRun, SiteOk, Rely;
      Pause();
      if stopping || site.cancel { return false; }
      ghost var before := Seen(site, View());
      pc := Cleared;
      Note(before, Act.Clear);
      return true;
    }

    method Spawn()
      requires Valid() && pc == Cleared
      modifies this`site, this`pc, this`command, this`active, this`trace
      ensures Valid() && old(trace) <= trace && pc == Running && active && command
      ensures site == old(site).(spawned := old(site).spawned + 1)
    {
      hide Local, LocalRun, SiteOk, Rely;
      ghost var before := Seen(site, View());
      site := site.(spawned := site.spawned + 1);
      pc, command, active := Running, true, true;
      Note(before, Act.Spawn);
    }

    /** The end of the command's process tree, or a failed cleanup. */
    method EndCommand(ending: Status, reaped: bool)
      requires Valid() && pc == Running && ending in {Completed, Cancelled, TimedOut, Failed}
      modifies this`pc, this`command, this`active, this`cleanupFailed, this`trace
      ensures Valid() && old(trace) <= trace && (if reaped then pc == Ending(ending) && active == old(active) else pc == Idle && cleanupFailed && !active)
      ensures reaped ==> cleanupFailed == old(cleanupFailed)
    {
      hide Local, LocalRun, SiteOk, Rely;
      ghost var before := Seen(site, View());
      if reaped {
        command := false;
        pc := Ending(ending);
        Note(before, Act.Reap(ending));
      } else {
        cleanupFailed, active := true, false;
        pc := Idle;
        Note(before, Act.Stuck);
      }
    }

    /** The command's process, from its launch to its end. */
    method RunCommand(ending: Status, reaped: bool)
      requires Valid() && pc == Cleared && ending in {Completed, Cancelled, TimedOut, Failed}
      modifies this
      ensures Valid() && old(trace) <= trace && (if reaped then pc == Ending(ending) && active else pc == Idle && cleanupFailed && !active)
      ensures singleton == old(singleton) && (reaped ==> cleanupFailed == old(cleanupFailed))
      ensures site.claim == old(site).claim && site.spawned == 1
      ensures Alone() ==> site == old(site).(spawned := 1)
    {
      hide Valid, Alone, Rely;
      AtHand();
      Spawn();
      ghost var spawned := site;
      AtHand();
      Pause();
      RelyOn(id, spawned, site, site, Idler(singleton));
      EndCommand(ending, reaped);
    }

    /** The last checks, the launch, and the reaping, before anything else. */
    method Launch(script: Script) returns (status: Status, clean: bool)
      requires Valid() && pc == Launching && GoodScript(script)
      modifies this
      ensures Valid() && old(trace) <= trace && (if clean then pc == Ending(status) else pc == Idle && cleanupFailed && !active)
      ensures cleanupFailed <==> old(cleanupFailed) || !clean
      ensures site.claim == old(site).claim && (site.spawned == 0 || LaunchAllowed(script, old(site).cancel))
      ensures clean ==> if site.spawned == 0 then IsRefusal(status) && !active else status == script.ending && active
      ensures Alone() && OwnerOk(id, old(site), Idler(singleton)) && old(site).spawned == 0 ==>
                var checks := Checks(script, true, old(site).cancel);
                if checks.Some? then clean && status == checks.value && site == old(site) && active == old(active)
                else if !script.launched then clean && status == Rejected && site == old(site) && active == old(active)
                else clean == script.reaped && site == old(site).(spawned := 1) && (clean ==> status == script.ending && active)
      ensures singleton == old(singleton)
    {
      hide Valid, Alone, Rely, GoodScript;
      GoodParts(script);
      AtHand();
      var stop := Prelaunch(script);
      AtHand();
      if stop.Some? { Refuse(stop.value); return stop.value, true; }
      var ok := Arm();
      AtHand();
      if !ok { Refuse(Rejected); return Rejected, true; }
      ok := LastLook(script.stopping);
      AtHand();
      if !ok { Refuse(Cancelled); return Cancelled, true; }
      if !script.launched { Refuse(Rejected); return Rejected, true; }
      RunCommand(script.ending, script.reaped);
      return script.ending, script.reaped;
    }

    /** STARTED, and the launch behind checks on both sides of it. */
    method Execute(script: Script) returns (status: Status, clean: bool)
      requires Valid() && pc == Preparing && !hook && GoodScript(script)
      modifies this
      ensures Valid() && old(trace) <= trace && (if clean then pc == Ending(status) else pc == Idle && cleanupFailed && !active)
      ensures cleanupFailed <==> old(cleanupFailed) || !clean
      ensures site.claim == old(site).claim && (site.spawned == 0 || LaunchAllowed(script, old(site).cancel))
      ensures clean ==> if site.spawned == 0 then IsRefusal(status) && !active else status == script.ending && active
      ensures Alone() && OwnerOk(id, old(site), Idler(singleton)) && !old(site).started && old(site).spawned == 0 ==>
                var checks := Checks(script, true, old(site).cancel);
                if checks.Some? then clean && status == checks.value && site == old(site) && active == old(active)
                else if !script.launched then clean && status == Rejected && site == old(site).(started := true) && active == old(active)
                else clean == script.reaped && site == old(site).(started := true, spawned := 1) && (clean ==> status == script.ending && active)
      ensures singleton == old(singleton)
    {
      hide Valid, Alone, Rely, GoodScript;
      AtHand();
      var stop := Prelaunch(script);
      AtHand();
      if stop.Some? { Refuse(stop.value); return stop.value, true; }
      var ok := Start();
      AtHand();
      if !ok { Refuse(Rejected); return Rejected, true; }
      status, clean := Launch(script);
    }

    /** What holds of the job while this watcher is at it. */
    lemma AtHand()
      requires Valid()
      ensures BeforeSpawn(pc) ==> site.spawned == 0 && !active
      ensures Holding(pc) ==> site.claim == Some(id) && !OwnFinal(id, site)
      ensures pc.Preparing? || pc.Launching? || pc.Armed? || pc.Cleared? ==> BeforeSpawn(pc) && Holding(pc)
      ensures pc.Ending? ==> Holding(pc)
      ensures pc == Running ==> site.spawned == 1 && Holding(pc)
      ensures site.claim.None? ==> site.spawned == 0
    {
    }

    lemma GoodParts(script: Script)
      requires GoodScript(script)
      ensures script.ending in {Completed, Cancelled, TimedOut, Failed}
    {
    }

    method Confirm() returns (ok: bool)
      requires Valid() && pc.Ending?
      modifies this`site, this`clock, this`pc, this`trace
      ensures Valid() && old(trace) <= trace && pc == (if ok then Publishing(old(pc).status) else old(pc))
      ensures Alone() ==> site == old(site) && (ok <==> OwnerOk(id, site, Idler(singleton)))
      ensures Rely(id, old(site), site) && (ok ==> OwnerOk(id, site, Idler(singleton)))
    {
      hide Local, LocalRun, SiteOk, Rely;
      Pause();
      if !OwnerOk(id, site, Idler(singleton)) { return false; }
      ghost var before := Seen(site, View());
      pc := Publishing(pc.status);
      Note(before, Act.Confirm);
      return true;
    }

    method Abandon()
      requires Valid() && (pc.Ending? || pc.Publishing?)
      modifies this`pc, this`active, this`trace
      ensures Valid() && old(trace) <= trace && pc == Idle && !active && !OwnFinal(id, site)
    {
      hide LocalRun, SiteOk, Rely;
      ghost var before := Seen(site, View());
      pc, active := Idle, false;
      Note(before, Act.Abandon);
    }

    /** An exclusive creation of FINAL. */
    method Publish(status: Status)
      requires Valid() && pc == Publishing(status) && site.final.None?
      modifies this`site, this`pc, this`active, this`trace
      ensures Valid() && old(trace) <= trace && pc == Idle && !active && site == old(site).(final := Some(Final(id, false, status)))
    {
      hide Local, LocalRun, SiteOk, Rely;
      ghost var before := Seen(site, View());
      site := site.(final := Some(Final(id, false, status)));
      pc, active := Idle, false;
      Note(before, Act.Publish);
    }

    /** A failure after the command ended: its outcome is not reported as such. */
    method Degrade()
      requires Valid() && pc.Ending? && active
      modifies this`pc, this`trace
      ensures Valid() && old(trace) <= trace && pc == Ending(Failed)
    {
      hide Local, LocalRun, SiteOk, Rely;
      ghost var before := Seen(site, View());
      pc := Ending(Failed);
      Note(before, Act.Degrade);
    }

    /** Publishes the result if the claim is still this watcher's and nothing was selected;
        the first result wins. */
    method Finish(status: Status)
      requires Valid() && pc == Ending(status)
      modifies this
      ensures Valid() && old(trace) <= trace && pc == Idle && !active
      ensures OwnFinal(id, site) ==> site.final.value.status == status && OwnerOk(id, old(site), Idler(singleton))
      ensures site.claim == old(site).claim && site.spawned == old(site).spawned
      ensures singleton == old(singleton) && cleanupFailed == old(cleanupFailed)
      ensures Alone() && OwnerOk(id, old(site), Idler(singleton)) ==> site == old(site).(final := Some(Final(id, false, status)))
    {
      hide Valid, Alone, Rely;
      AtHand();
      var ok := Confirm();
      ghost var confirmed := site;
      RelyOn(id, old(site), confirmed, confirmed, Idler(singleton));
      if !ok { Abandon(); return; }
      Pause();
      RelyOn(id, confirmed, site, site, Idler(singleton));
      if site.final.Some? { Abandon(); return; }
      Publish(status);
    }

    // ---------------------------------------------------------- the watcher's life

    /** An exclusive creation of the watcher lock. */
    method AcquireSingleton() returns (ok: bool)
      requires Valid() && pc == Boot
      modifies this`site, this`clock, this`singleton, this`pc, this`trace
      ensures Valid() && old(trace) <= trace
      ensures if ok then pc == Recovering && singleton else pc == Boot && singleton == old(singleton)
      ensures Alone() ==> (ok <==> old(site).lock.None?) && site == if ok then old(site).(lock := Some(id)) else old(site)
      ensures Apart(id, old(site), site)
    {
      hide Local, LocalRun, SiteOk, Rely;
      ghost var first := site;
      Pause();
      RelyIsApart(id, first, site);
      if site.lock.Some? { return false; }
      ghost var before := Seen(site, View());
      site := site.(lock := Some(id));
      singleton := true;
      pc := Recovering;
      Note(before, Act.TakeLock);
      return true;
    }

    /** A claim found without a result is settled as unknown, and never replayed; only
        while this watcher's lock is its own. */
    method RecoverInterrupted()
      requires Valid() && pc == Recovering
      modifies this`site, this`clock, this`trace
      ensures Valid() && old(trace) <= trace
      ensures Alone() ==>
                site == if old(site).claim.Some? && old(site).final.None? && (singleton ==> old(site).lock == Some(id))
                        then old(site).(final := Some(Final(id, true, Unknown))) else old(site)
      ensures Apart(id, old(site), site)
    {
      hide Local, LocalRun, SiteOk, Rely, Apart;
      ghost var first := site;
      Pause();
      ghost var second := site;
      RelyIsApart(id, first, second);
      if site.claim.None? || site.final.Some? { return; }
      Pause();
      ghost var third := site;
      RelyIsApart(id, second, third);
      ApartOn(id, first, second, third);
      if singleton && site.lock != Some(id) { return; }
      Pause();
      RelyIsApart(id, third, site);
      ApartOn(id, first, third, site);
      SettledIsApart(first, site);
      StillClaimed();
      if site.final.Some? || site.claim.None? { return; }
      ghost var before := Seen(site, View());
      site := site.(final := Some(Final(id, true, Unknown)));
      Note(before, Act.RecoverJob);
    }

    lemma SettledIsApart(first: Site, s: Site)
      ensures Apart(id, first, s) && s.final.None? ==> Apart(id, first, s.(final := Some(Final(id, true, Unknown))))
    {
    }

    lemma StillClaimed()
      requires Valid()
      ensures site.final.Some? ==> site.claim.Some?
    {
    }

    /** Starts serving jobs, with the lock or, where none is used, without. */
    method Serve()
      requires Valid() && pc in {Boot, Recovering}
      modifies this`pc, this`trace
      ensures Valid() && old(trace) <= trace && pc == Idle && !active
    {
      NothingActive();
      hide Local, LocalRun, SiteOk, Rely;
      ghost var before := Seen(site, View());
      pc := Idle;
      Note(before, Act.Serve);
    }

    lemma NothingActive()
      requires Valid() && pc in {Boot, Recovering}
      ensures !active
    {
    }

    /** Gives the lock back if it is this watcher's, unless a cleanup failed. */
    method ReleaseSingleton()
      requires Valid() && pc == Idle
      modifies this`site, this`clock, this`pc, this`trace
      ensures Valid() && old(trace) <= trace && pc == Gone
      ensures cleanupFailed && old(site).lock == Some(id) && Alone() ==> site == old(site)
      ensures !cleanupFailed && Alone() ==> site == if old(site).lock == Some(id) then old(site).(lock := None) else old(site)
      ensures !cleanupFailed ==> site.lock != Some(id)
      ensures Apart(id, old(site), site)
    {
      hide Local, LocalRun, SiteOk, Rely;
      ghost var first := site;
      Pause();
      RelyIsApart(id, first, site);
      ghost var before := Seen(site, View());
      if !cleanupFailed && site.lock == Some(id) {
        site := site.(lock := None);
      }
      pc := Gone;
      Note(before, Act.Release);
    }

    method Look() returns (open: bool)
      requires Valid() && pc == Idle
      modifies this`site, this`clock, this`pc, this`trace
      ensures Valid() && old(trace) <= trace && pc == (if open then Claiming else Idle)
      ensures Alone() ==> site == old(site) && (open <==> site.final.None?)
      ensures Rely(id, old(site), site)
    {
      hide Local, LocalRun, SiteOk, Rely;
      Pause();
      if site.final.Some? { return false; }
      ghost var before := Seen(site, View());
      pc := Claiming;
      Note(before, Act.Look);
      return true;
    }

    lemma AtRest()
      requires Valid()
      ensures cleanupFailed ==> !OwnFinal(id, site)
      ensures OwnFinal(id, site) ==> !hook && !command && (NeverRan(site.final.value.status) ==> site.spawned == 0)
      ensures site.spawned <= 1
    {
    }

    /** One attempt at the job, with others acting at any moment. Whatever happens, the
        watcher ends with its invariant: a result of its own only after every process it
        spawned was reaped, REJECTED or EXPIRED only if the command never ran, and none at
        all once a cleanup failed. */
    method ProcessJob(script: Script) returns (handled: bool)
      requires Valid() && pc == Idle && !active && GoodScript(script)
      modifies this
      ensures Valid() && old(trace) <= trace && pc == Idle && !active
      ensures cleanupFailed ==> !OwnFinal(id, site)
      ensures OwnFinal(id, site) ==> !hook && !command && (NeverRan(site.final.value.status) ==> site.spawned == 0)
      ensures site.spawned <= 1
      ensures singleton == old(singleton)
      ensures Warranted(id, script, old(site), site)
      ensures Alone() && FreeFor(old(site)) ==>
                && handled && site == Attempted(id, old(site), script)
                && (cleanupFailed <==> old(cleanupFailed) || site.final.None?)
      ensures Alone() && FreeFor(old(site)) && old(site).cancel ==>
                && site == old(site).(claim := Some(id), marked := true,
                                      final := Some(Final(id, false, if script.verified then Cancelled else Rejected)))
                && cleanupFailed == old(cleanupFailed)
      ensures Alone() && FreeFor(old(site)) ==> (site.spawned == 1 <==> MayLaunch(script, old(site).cancel))
    {
      hide Valid, Alone, Warranted, Attempted, Verdict, Local, SiteOk;
      ghost var first := site;
      handled := Attempt(script);
      AtRest();
      if FreeFor(first) { AttemptMeans(id, first, script); }
    }

    /** Nobody has touched the job, and this watcher's lock, if any, is its own. */
    predicate FreeFor(s: Site)
      reads this`singleton
    {
      s.claim.None? && !s.started && s.final.None? && s.spawned == 0 && (singleton ==> s.lock == Some(id))
    }

    method Attempt(script: Script) returns (handled: bool)
      requires Valid() && pc == Idle && !active && GoodScript(script)
      modifies this
      ensures Valid() && old(trace) <= trace && pc == Idle && !active
      ensures singleton == old(singleton)
      ensures Warranted(id, script, old(site), site)
      ensures Alone() && FreeFor(old(site)) ==>
                && handled && site == Attempted(id, old(site), script)
                && (cleanupFailed <==> old(cleanupFailed) || Verdict(script, old(site).cancel).None?)
    {
      hide Valid, Alone, Rely, Local, SiteOk, GoodScript, Verdict, Checks, Reaches;
      ghost var first := site;
      AtHand();
      var ok := Look();
      ghost var seen := site;
      RelyIsApart(id, first, seen);
      NothingTried(id, script, first, seen);
      if !ok { return false; }
      ok := Claim();
      RelyIsApart(id, seen, site);
      ApartOn(id, first, seen, site);
      NothingTried(id, script, first, site);
      if !ok { return false; }
      handled := true;
      Pursue(script);
    }

    /** The verdict on the request, the first checks, and the approval. */
    method Consider(script: Script) returns (stop: Option<Status>, clean: bool)
      requires Valid() && pc == Preparing && !hook && GoodScript(script)
      modifies this
      ensures Valid() && old(trace) <= trace && !active && (if clean then pc == Preparing && !hook else pc == Idle && cleanupFailed)
      ensures singleton == old(singleton) && (cleanupFailed <==> old(cleanupFailed) || !clean) && Rely(id, old(site), site)
      ensures clean ==> if stop.Some? then IsRefusal(stop.value) else script.verified && (script.hook ==> script.approved && script.hookReaped)
      ensures old(site).cancel ==> clean && stop.Some?
      ensures old(site).cancel && OwnerOk(id, site, Idler(singleton)) ==> stop == Some(if script.verified then Cancelled else Rejected)
      ensures Alone() && OwnerOk(id, old(site), Idler(singleton)) ==>
                && site == old(site)
                && (if !clean then !Reaches(script, old(site).cancel) && Verdict(script, old(site).cancel).None?
                    else if stop.Some? then !Reaches(script, old(site).cancel) && Verdict(script, old(site).cancel) == stop
                    else Reaches(script, old(site).cancel))
    {
      hide Valid, Alone, Rely, GoodScript;
      ghost var first := site;
      AtHand();
      Pause();
      ghost var looked := site;
      RelyOn(id, first, looked, site, Idler(singleton));
      stop, clean := if script.verified then None else Some(Rejected), true;
      if stop.None? { stop := Prelaunch(script); }
      RelyOn(id, first, looked, site, Idler(singleton));
      ghost var asked := site;
      if stop.None? {
        stop, clean := Approve(script);
        RelyOn(id, first, asked, site, Idler(singleton));
      }
    }

    /** What an attempt does once the claim is this watcher's. */
    method Pursue(script: Script)
      requires Valid() && pc == Preparing && !hook && GoodScript(script)
      modifies this
      ensures Valid() && old(trace) <= trace && pc == Idle && !active
      ensures singleton == old(singleton)
      ensures old(site).spawned == 0 && site.claim == old(site).claim == Some(id)
      ensures site.spawned == 0 || MayLaunch(script, old(site).cancel)
      ensures OwnFinal(id, site) ==> if site.spawned == 0 then IsRefusal(site.final.value.status) else site.final.value.status == if script.collected then script.ending else Failed
      ensures old(site).cancel && OwnFinal(id, site) ==> site.final.value.status == if script.verified then Cancelled else Rejected
      ensures Alone() && OwnerOk(id, old(site), Idler(singleton)) && !old(site).started ==>
                && site == Attempted(id, old(site), script)
                && (cleanupFailed <==> old(cleanupFailed) || Verdict(script, old(site).cancel).None?)
    {
      hide Valid, Alone, Rely, Local, SiteOk, GoodScript;
      ghost var first := site;
      AtHand();
      var stop, clean := Consider(script);
      RelyOn(id, first, site, site, Idler(singleton));
      AtHand();
      AtRest();
      if !clean { return; }
      var status;
      if stop.Some? {
        Refuse(stop.value);
        status := stop.value;
      } else {
        status, clean := Execute(script);
        AtRest();
        if !clean { return; }
        if active && !script.collected {
          Degrade();
          status := Failed;
        }
      }
      Finish(status);
    }

    /** A whole life: the lock, old claims, one attempt at the job, and the lock again. With
        nobody else about it leaves what the attempt leaves, and the lock exactly if a
        cleanup failed. */
    method Run(script: Script) returns (started: bool)
      requires Valid() && pc == Boot && !cleanupFailed && GoodScript(script)
      modifies this
      ensures Valid() && old(trace) <= trace && (started <==> pc == Gone)
      ensures started && !cleanupFailed ==> site.lock != Some(id)
      ensures Warranted(id, script, old(site), site)
      ensures Alone() && Untouched(old(site)) ==>
                && started
                && site == Attempted(id, old(site), script).(lock := if site.final.None? then Some(id) else None)
      ensures Alone() && Untouched(old(site)) && old(site).cancel ==>
                site == old(site).(claim := Some(id), marked := true,
                                   final := Some(Final(id, false, if script.verified then Cancelled else Rejected)))
    {
      hide Valid, Alone, Rely, Local, SiteOk, GoodScript, Verdict, Reaches, Apart, Warranted;
      ghost var first := site;
      AtHand();
      started := AcquireSingleton();
      ghost var locked := site;
      NothingTried(id, script, first, locked);
      if !started { return; }
      RecoverInterrupted();
      ghost var settled := site;
      ApartOn(id, first, locked, settled);
      Serve();
      AtHand();
      var handled := ProcessJob(script);
      ghost var tried := site;
      ReleaseSingleton();
      WarrantedWithin(id, script, first, settled, tried, site);
    }

    static predicate Untouched(s: Site) {
      s.lock.None? && s.claim.None? && !s.started && s.final.None? && s.spawned == 0
    }
  }
}

/** The results in the bridge's rows: the sweep of a task, followed through everything else
    that happens to its row, commits to the earliest valid result. */
module Harvest {
  import opened Wrappers
  import opened Channel
  import opened Rows
  import opened Sweep
  import opened Posting
  import B = Bridge

  // ------------------------------------------------------------ what rows keep

  predicate Open(row: Row) {
    row.phase == Queued || Active(row.phase)
  }

  /** A task that may still be worked on has no result; its message is known exactly once it
      is posted; and one that was never dispatched has neither. */
  predicate SweepOk(row: Row) {
    && (Open(row) ==> row.teams.result.None?)
    && (row.phase == Resulted ==> row.teams.result.Some?)
    && (Open(row) ==> (row.phase == Posted <==> row.teams.messageId.Some?))
    && (row.teams.dispatch.None? ==> row.teams == NO_TEAMS)
  }

  ghost predicate AllSweepOk(s: Office) {
    forall t :: t in s.rows ==> SweepOk(s.rows[t])
  }

  lemma ActKeepsSweepOk(max: nat, s: Office, act: Act, s': Office)
    requires OfficeInv(max, s) && AllSweepOk(s) && ActOk(max, s, act, s')
    ensures AllSweepOk(s')
  {
    hide Turned, RootOf, Total, ActiveTasks, WithinBudget, PostsKnown, DistinctDispatch, Reposts, Fresh, ChannelSide, Answered, Visited;
    match act
    case Channel(rows) => ChannelKeepsSweepOk(s.rows, rows);
    case Collect(task, responder, roots, scanned, answers) => VisitKeepsSweepOk(responder, task, s.rows[task], roots, scanned, answers);
    case Answer(outcome, now) => AnswerKeepsSweepOk(s.rows[s.attempt.value.task], outcome, now);
    case _ =>
  }

  lemma VisitKeepsSweepOk(responder: string, task: string, row: Row, roots: seq<Message>, scanned: bool, answers: seq<Page>)
    requires SweepOk(row) && Active(row.phase) && row.teams.dispatch.Some?
    ensures SweepOk(Visited(responder, task, row, roots, scanned, answers))
  {
    hide Turned, RootOf;
    TurnedFacts(responder, task, row, RootOf(responder, task, row, roots), scanned, answers);
  }

  lemma ChannelKeepsSweepOk(rows: map<string, Row>, rows': map<string, Row>)
    requires ChannelSide(rows, rows') && forall t :: t in rows ==> SweepOk(rows[t])
    ensures forall t :: t in rows' ==> SweepOk(rows'[t])
  {
  }

  lemma AnswerKeepsSweepOk(row: Row, outcome: Outcome, now: int)
    requires SweepOk(row) && row.phase == Posting && row.teams.dispatch.Some?
    ensures SweepOk(Answered(row, outcome, now))
  {
  }

  lemma {:induction false} RowsAreSweepOk(max: nat, run: seq<Office>, acts: seq<Act>, i: nat)
    requires IsHistory(max, run, acts) && i < |run|
    ensures OfficeInv(max, run[i]) && AllSweepOk(run[i])
  {
    hide ActOk, OfficeInv, AllSweepOk;
    RunHasHistory(max, run);
    OfficeRunInv(max, run, i);
    if i == 0 {
      assert AllSweepOk(EMPTY_OFFICE) by { NoRowsOk(); }
    } else {
      RowsAreSweepOk(max, run, acts, i - 1);
      assert ActOk(max, run[i - 1], acts[i - 1], run[i - 1 + 1]);
      ActKeepsSweepOk(max, run[i - 1], acts[i - 1], run[i]);
    }
  }

  lemma NoRowsOk()
    ensures AllSweepOk(EMPTY_OFFICE)
  {
  }

  /** What the bridge wants to report is what its history bears out: running, only with a
      known message that is not overdue; blocked or running, exactly while dispatched
      without a result; an outcome, exactly with a committed result or a rejection. */
  lemma WantedIsJustified(max: nat, run: seq<Office>, acts: seq<Act>, i: nat, task: string, now: int, timeout: int)
    requires IsHistory(max, run, acts) && i < |run| && task in run[i].rows
    ensures var row := run[i].rows[task];
            var wanted := Wanted(row, now, timeout);
            && (wanted == Some(Running) ==> row.teams.messageId.Some? && now - row.teams.postedAt < timeout)
            && (wanted in {Some(Blocked), Some(Running)} <==> Active(row.phase))
            && (wanted in {Some(Blocked), Some(Running)} ==> row.teams.dispatch.Some? && row.teams.result.None?)
            && (wanted in {Some(Completed), Some(Failed)} <==> row.phase in {Resulted, Rejected})
            && (row.phase == Resulted ==> row.teams.result.Some? && wanted == Some(row.teams.result.value.status))
  {
    hide IsHistory, WithinBudget, PostsKnown, DistinctDispatch, ActiveTasks;
    RowsAreSweepOk(max, run, acts, i);
    assert SweepOk(run[i].rows[task]);
  }

  // ------------------------------------------------------------ the sweep of one row

  /** Rounds for the task look for this responder's results, in a thread that does not change. */
  ghost predicate Steady(responder: string, task: string, thread: seq<seq<Message>>, rows: map<string, Row>, act: Act) {
    act.Collect? && act.task == task && task in rows ==>
      act.responder == responder && (rows[task].teams.messageId.Some? ==> Stable(thread, StartOf(HuntOf(rows[task])), act.answers))
  }

  ghost predicate SteadyVisits(responder: string, task: string, thread: seq<seq<Message>>, visits: seq<Visit>) {
    forall i {:trigger visits[i]} :: 0 <= i < |visits| ==> Steady(responder, task, thread, visits[i].rows, visits[i].act)
  }

  /** A round of the task makes it start over when a read of its thread fails. */
  ghost predicate StartsOver(task: string, v: Visit) {
    && v.act.Collect? && v.act.task == task && task in v.rows && v.rows[task].teams.dispatch.Some?
    && var row := v.rows[task];
       && row.teams.messageId.Some?
       && var first := Earliest(row.teams.candidate, RootOf(v.act.responder, task, row, v.act.roots));
          Read(LensOf(v.act.responder, task, row), v.act.answers, StartOf(HuntOf(row)), first).Broken?
  }

  /** Whether the round looks among the roots for results of the task. */
  predicate LooksFor(task: string, v: Visit) {
    v.act.Collect? && v.act.task == task && task in v.rows && v.rows[task].teams.dispatch.Some?
  }

  /** Every valid result of the task among the roots read since it last started over. */
  ghost function ScannedOf(task: string, visits: seq<Visit>): seq<Candidate> {
    if visits == [] then []
    else
      var past, v := ScannedOf(task, visits[..|visits| - 1]), visits[|visits| - 1];
      if !LooksFor(task, v) then past
      else if StartsOver(task, v) then []
      else past + Results(Lens(v.act.responder, None, task, v.rows[task].teams.dispatch.value), v.act.roots)
  }

  /** Of these, the one that each round selected. */
  ghost function RootsOf(task: string, visits: seq<Visit>): seq<Candidate> {
    if visits == [] then [] else RootsAfter(task, RootsOf(task, visits[..|visits| - 1]), visits[|visits| - 1])
  }

  ghost function RootsAfter(task: string, roots: seq<Candidate>, v: Visit): seq<Candidate> {
    if !LooksFor(task, v) then roots
    else if StartsOver(task, v) then [] else roots + Of(RootOf(v.act.responder, task, v.rows[task], v.act.roots))
  }

  /** A round's own selection is one of the results it read, and none of them is earlier. */
  lemma {:induction false} SelectedIsEarliest(task: string, visits: seq<Visit>)
    ensures forall r :: r in RootsOf(task, visits) ==> r in ScannedOf(task, visits)
    ensures forall x :: x in ScannedOf(task, visits) ==> exists r :: r in RootsOf(task, visits) && !Before(x, r)
  {
    hide Results, Before, StartsOver;
    if visits != [] {
      var past, v := visits[..|visits| - 1], visits[|visits| - 1];
      SelectedIsEarliest(task, past);
      if LooksFor(task, v) && !StartsOver(task, v) {
        var found := Results(Lens(v.act.responder, None, task, v.rows[task].teams.dispatch.value), v.act.roots);
        BestIsMinimum(found);
        forall x | x in ScannedOf(task, visits) ensures exists r :: r in RootsOf(task, visits) && !Before(x, r) {
          if x in found {
            assert Best(found).value in RootsOf(task, visits) && !Before(x, Best(found).value);
          } else {
            assert x in ScannedOf(task, past);
            var r :| r in RootsOf(task, past) && !Before(x, r);
            assert r in RootsOf(task, visits);
          }
        }
      }
    }
  }

  /** The order of results is total. */
  lemma NotBefore(x: Candidate, y: Candidate, z: Candidate)
    requires !Before(x, y) && !Before(y, z)
    ensures !Before(x, z)
  {
  }

  /** The chase is where the row's columns are. */
  predicate Shows(rows: map<string, Row>, task: string, c: Chase) {
    if task in rows
    then c.linked == rows[task].teams.messageId.Some?
         && c.hunt == Hunt(rows[task].teams.replyCursor, rows[task].teams.candidate, rows[task].teams.result)
    else c == NO_CHASE
  }

  /** The row's identities, as far as they are known, are those of the lens. */
  predicate Under(lens: Lens, rows: map<string, Row>, task: string) {
    task in rows ==>
      && (rows[task].teams.dispatch.Some? ==> rows[task].teams.dispatch == Some(lens.dispatch))
      && (rows[task].teams.messageId.Some? ==> rows[task].teams.messageId == lens.replyTo)
  }

  /** What an act other than a round of its own does to the sweep columns of a row: at most
      its message becomes known, before there is a result. */
  predicate QuietChange(row: Row, row': Row) {
    && HuntOf(row') == HuntOf(row) && row'.teams.result == row.teams.result
    && (row.teams.dispatch.Some? ==> row'.teams.dispatch == row.teams.dispatch)
    && (row'.teams.messageId == row.teams.messageId || (row.teams.messageId.None? && row.teams.result.None?))
  }

  lemma RowQuiet(max: nat, s: Office, act: Act, s': Office, task: string)
    requires OfficeInv(max, s) && AllSweepOk(s) && ActOk(max, s, act, s') && task in s'.rows && !(act.Collect? && act.task == task)
    ensures task in s.rows ==> QuietChange(s.rows[task], s'.rows[task])
    ensures task !in s.rows ==> s'.rows[task].teams == NO_TEAMS
  {
    assert task in s.rows ==> SweepOk(s.rows[task]);
    hide ActOk, OfficeInv, AllSweepOk, QuietChange, SweepOk;
    match act
    case Channel(rows) => ChannelActQuiet(max, s, rows, s', task);
    case Answer(outcome, now) => AnswerActQuiet(max, s, outcome, now, s', task);
    case _ => OtherQuiet(max, s, act, s', task);
  }

  lemma ChannelActQuiet(max: nat, s: Office, rows: map<string, Row>, s': Office, task: string)
    requires ActOk(max, s, Channel(rows), s') && task in s'.rows
    ensures task in s.rows ==> QuietChange(s.rows[task], s'.rows[task])
    ensures task !in s.rows ==> s'.rows[task].teams == NO_TEAMS
  {
    hide ChannelSide, QuietChange;
    ChannelQuiet(s.rows, rows, task);
  }

  lemma AnswerActQuiet(max: nat, s: Office, outcome: Outcome, now: int, s': Office, task: string)
    requires OfficeInv(max, s) && AllSweepOk(s) && ActOk(max, s, Answer(outcome, now), s') && task in s'.rows
    ensures task in s.rows && QuietChange(s.rows[task], s'.rows[task])
  {
    assert task in s.rows ==> SweepOk(s.rows[task]);
    hide OfficeInv, AllSweepOk, Answered, SweepOk;
    AttemptFacts(max, s);
    if s.attempt.value.task == task { AnswerQuiet(s.rows[task], outcome, now); }
  }

  lemma OtherQuiet(max: nat, s: Office, act: Act, s': Office, task: string)
    requires ActOk(max, s, act, s') && task in s'.rows && (task in s.rows ==> SweepOk(s.rows[task]))
    requires !act.Channel? && !act.Answer? && !(act.Collect? && act.task == task)
    ensures task in s.rows && QuietChange(s.rows[task], s'.rows[task])
  {
    hide Visited, ActiveTasks, Reposts, Fresh;
  }

  lemma ChannelQuiet(rows: map<string, Row>, rows': map<string, Row>, task: string)
    requires ChannelSide(rows, rows') && task in rows'
    ensures task in rows ==> QuietChange(rows[task], rows'[task])
    ensures task !in rows ==> rows'[task].teams == NO_TEAMS
  {
  }

  lemma AnswerQuiet(row: Row, outcome: Outcome, now: int)
    requires SweepOk(row) && row.phase == Posting && row.teams.dispatch.Some?
    ensures QuietChange(row, Answered(row, outcome, now))
  {
  }

  lemma RowsStay(max: nat, s: Office, act: Act, s': Office, task: string)
    requires ActOk(max, s, act, s') && task in s.rows
    ensures task in s'.rows
  {
    hide Turned, ActiveTasks, Reposts, Fresh;
  }

  /** Identities stay once they are known. */
  lemma UnderBefore(max: nat, s: Office, act: Act, s': Office, lens: Lens, task: string)
    requires OfficeInv(max, s) && AllSweepOk(s) && ActOk(max, s, act, s') && Under(lens, s'.rows, task)
    ensures Under(lens, s.rows, task)
  {
    hide OfficeInv, AllSweepOk, ActOk;
    if task in s.rows {
      RowsStay(max, s, act, s', task);
      if act.Collect? && act.task == task {
        CollectIs(max, s, act, s');
        TurnedFacts(act.responder, task, s.rows[task], RootOf(act.responder, task, s.rows[task], act.roots), act.scanned, act.answers);
      } else {
        RowQuiet(max, s, act, s', task);
      }
    }
  }

  lemma CollectIs(max: nat, s: Office, act: Act, s': Office)
    requires ActOk(max, s, act, s') && act.Collect?
    ensures act.task in s.rows && act.task in s'.rows && s.rows[act.task].teams.dispatch.Some? && Active(s.rows[act.task].phase)
    ensures s'.rows[act.task] == Turned(act.responder, act.task, s.rows[act.task], RootOf(act.responder, act.task, s.rows[act.task], act.roots), act.scanned, act.answers)
  {
    hide Turned, RootOf;
  }

  /** Whatever happens to the row is a step of the chase: a round, the discovery of its own
      message, or nothing. */
  lemma RowStep(max: nat, s: Office, act: Act, s': Office, lens: Lens, thread: seq<seq<Message>>, c: Chase) returns (c': Chase)
    requires OfficeInv(max, s) && AllSweepOk(s) && ActOk(max, s, act, s') && Steady(lens.responder, lens.task, thread, s.rows, act)
    requires Under(lens, s'.rows, lens.task) && Shows(s.rows, lens.task, c)
    ensures ChaseCanStep(lens, thread, c, c') && Shows(s'.rows, lens.task, c')
    ensures c'.roots == RootsAfter(lens.task, c.roots, Visit(s.rows, act))
  {
    UnderBefore(max, s, act, s', lens, lens.task);
    if act.Collect? && act.task == lens.task {
      c' := TurnStep(max, s, act, s', lens, thread, c);
    } else {
      c' := QuietStep(max, s, act, s', lens, thread, c);
    }
  }

  lemma TurnStep(max: nat, s: Office, act: Act, s': Office, lens: Lens, thread: seq<seq<Message>>, c: Chase) returns (c': Chase)
    requires AllSweepOk(s) && ActOk(max, s, act, s') && Steady(lens.responder, lens.task, thread, s.rows, act)
    requires act.Collect? && act.task == lens.task && Under(lens, s.rows, lens.task) && Shows(s.rows, lens.task, c)
    ensures ChaseCanStep(lens, thread, c, c') && Shows(s'.rows, lens.task, c')
    ensures c'.roots == RootsAfter(lens.task, c.roots, Visit(s.rows, act))
  {
    hide ActOk, Read, Earliest, Stable, Window, RootOf;
    CollectIs(max, s, act, s');
    var row := s.rows[lens.task];
    var root := RootOf(act.responder, lens.task, row, act.roots);
    assert SweepOk(row);
    assert c.hunt == HuntOf(row);
    var swept := if c.linked then Read(lens, act.answers, StartOf(c.hunt), Earliest(c.hunt.candidate, root)) else Swept(None, None);
    c' := Chase(c.linked, Round(lens, c.linked, c.hunt, root, act.scanned, act.answers),
                if swept.Broken? then [] else c.roots + Of(root),
                if swept.Broken? then [] else c.merged + Of(root) + (if c.linked then Window(lens, thread, StartOf(c.hunt), Reach(thread, swept)) else []));
    assert c.linked ==> LensOf(act.responder, lens.task, row) == lens;
    assert ChaseNext(lens, thread, c, Turn(root, act.scanned, act.answers), c');
  }

  lemma QuietStep(max: nat, s: Office, act: Act, s': Office, lens: Lens, thread: seq<seq<Message>>, c: Chase) returns (c': Chase)
    requires OfficeInv(max, s) && AllSweepOk(s) && ActOk(max, s, act, s')
    requires !(act.Collect? && act.task == lens.task) && Shows(s.rows, lens.task, c)
    ensures ChaseCanStep(lens, thread, c, c') && Shows(s'.rows, lens.task, c') && c'.roots == c.roots
  {
    hide OfficeInv, AllSweepOk, ActOk, Read, Round, Stable;
    if lens.task in s.rows { RowsStay(max, s, act, s', lens.task); }
    if lens.task in s'.rows { RowQuiet(max, s, act, s', lens.task); }
    c' := if lens.task in s'.rows then c.(linked := s'.rows[lens.task].teams.messageId.Some?) else c;
    if c' == c {
      assert ChaseNext(lens, thread, c, Lapse, c');
    } else {
      assert ChaseNext(lens, thread, c, Link, c');
    }
  }

  /** A task's sweep columns, over any history with steady rounds, are a run of the chase. */
  lemma {:induction false} SweepFollows(max: nat, run: seq<Office>, acts: seq<Act>, lens: Lens, thread: seq<seq<Message>>) returns (chases: seq<Chase>)
    requires IsHistory(max, run, acts) && SteadyVisits(lens.responder, lens.task, thread, Visits(run, acts))
    requires Under(lens, run[|acts|].rows, lens.task)
    ensures ChaseRun(lens, thread, chases) && Shows(run[|acts|].rows, lens.task, chases[|chases| - 1])
    ensures chases[|chases| - 1].roots == RootsOf(lens.task, Visits(run, acts))
    decreases |acts|
  {
    hide ActOk, OfficeInv, AllSweepOk, Steady, RootsAfter, ChaseCanStep, Under;
    if acts == [] {
      chases := [NO_CHASE];
    } else {
      var n := |acts| - 1;
      var s, s', v := run[n], run[n + 1], Visit(run[n].rows, acts[n]);
      var past := Visits(run[..n + 1], acts[..n]);
      assert ActOk(max, run[n], acts[n], run[n + 1]);
      HistoryPrefix(max, run, acts, n);
      RowsAreSweepOk(max, run, acts, n);
      UnderBefore(max, s, acts[n], s', lens, lens.task);
      LastVisit(lens, thread, past, v);
      var before := SweepFollows(max, run[..n + 1], acts[..n], lens, thread);
      var c' := RowStep(max, s, acts[n], s', lens, thread, before[|before| - 1]);
      chases := before + [c'];
      assert chases[..|chases| - 1] == before;
    }
  }

  /** The last act of a history, seen from its rounds. */
  lemma LastVisit(lens: Lens, thread: seq<seq<Message>>, past: seq<Visit>, v: Visit)
    requires SteadyVisits(lens.responder, lens.task, thread, past + (if v.act.Collect? then [v] else []))
    ensures SteadyVisits(lens.responder, lens.task, thread, past) && Steady(lens.responder, lens.task, thread, v.rows, v.act)
    ensures RootsOf(lens.task, past + (if v.act.Collect? then [v] else [])) == RootsAfter(lens.task, RootsOf(lens.task, past), v)
  {
    hide Stable, StartsOver;
    var visits := past + [v];
    if v.act.Collect? {
      assert visits[..|visits| - 1] == past && visits[|visits| - 1] == v;
      forall i {:trigger past[i]} | 0 <= i < |past| ensures Steady(lens.responder, lens.task, thread, past[i].rows, past[i].act) {
        assert visits[i] == past[i];
      }
    } else {
      assert past + [] == past;
    }
  }

  /** The result in a row, in any history of posts, crashes, scans, operators and rounds: it
      is a valid reply or a root result; no valid result in a root message read since the
      last restart is earlier, and if the task's thread is known, no valid reply in it is. */
  lemma RowResultIsEarliest(max: nat, run: seq<Office>, acts: seq<Act>, responder: string, task: string, thread: seq<seq<Message>>)
    requires thread != [] && IsHistory(max, run, acts) && SteadyVisits(responder, task, thread, Visits(run, acts))
    requires task in run[|acts|].rows && run[|acts|].rows[task].teams.result.Some?
    ensures run[|acts|].rows[task].teams.dispatch.Some?
    ensures var row := run[|acts|].rows[task];
            var lens, r, scanned := LensOf(responder, task, row), row.teams.result.value, ScannedOf(task, Visits(run, acts));
            && (r in scanned || r in Results(lens, Flat(thread)))
            && (forall other :: other in scanned ==> !Before(other, r))
            && (row.teams.messageId.Some? ==> forall other :: other in Results(lens, Flat(thread)) ==> !Before(other, r))
  {
    hide IsHistory, SteadyVisits, ChaseRun, Results, Flat, RootsOf, ScannedOf, Visits, Before, OfficeInv;
    HistoryLength(max, run, acts);
    RowsAreSweepOk(max, run, acts, |acts|);
    var row := run[|acts|].rows[task];
    assert SweepOk(row);
    var lens, r := LensOf(responder, task, row), row.teams.result.value;
    var chases := SweepFollows(max, run, acts, lens, thread);
    CommittedIsEarliest(lens, thread, chases);
    var visits := Visits(run, acts);
    SelectedIsEarliest(task, visits);
    forall other | other in ScannedOf(task, visits) ensures !Before(other, r) {
      var root :| root in RootsOf(task, visits) && !Before(other, root);
      NotBefore(other, root, r);
    }
  }

  // ------------------------------------------------------------ who gives a result

  /** The messages of the pages that a sweep reads: all before the first page that cannot
      be read, up to the last page of the thread. */
  function PagesRead(answers: seq<Page>): seq<Message> {
    if answers == [] || answers[0].Unreadable? then []
    else answers[0].values + (if answers[0].next.None? then [] else PagesRead(answers[1..]))
  }

  /** A page cannot be read before the thread ends. */
  predicate Fails(answers: seq<Page>) {
    answers != [] && (answers[0].Unreadable? || (answers[0].next.Some? && Fails(answers[1..])))
  }

  /** A round of the task forgets its sweep: its thread is known and a page fails. */
  predicate Forgets(task: string, v: Visit) {
    LooksFor(task, v) && v.rows[task].teams.messageId.Some? && Fails(v.act.answers)
  }

  /** The root messages that the rounds of a task read since its sweep last failed. */
  function RootsHeard(task: string, visits: seq<Visit>): seq<Message> {
    if visits == [] then []
    else
      var past, v := RootsHeard(task, visits[..|visits| - 1]), visits[|visits| - 1];
      if !LooksFor(task, v) then past else if Forgets(task, v) then [] else past + v.act.roots
  }

  /** The replies that they read. */
  function RepliesHeard(task: string, visits: seq<Visit>): seq<Message> {
    if visits == [] then []
    else
      var past, v := RepliesHeard(task, visits[..|visits| - 1]), visits[|visits| - 1];
      if !LooksFor(task, v) || v.rows[task].teams.messageId.None? then past
      else if Forgets(task, v) then [] else past + PagesRead(v.act.answers)
  }

  /** All rounds of the task look for this responder's results. */
  predicate OneResponder(responder: string, task: string, visits: seq<Visit>) {
    forall k :: 0 <= k < |visits| && LooksFor(task, visits[k]) ==> visits[k].act.responder == responder
  }

  /** The results that the rounds of a task found, as they came. */
  ghost function Told(lens: Lens, visits: seq<Visit>): seq<Candidate> {
    if visits == [] then [] else ToldAfter(lens, Told(lens, visits[..|visits| - 1]), visits[|visits| - 1])
  }

  ghost function ToldAfter(lens: Lens, past: seq<Candidate>, v: Visit): seq<Candidate> {
    if !LooksFor(lens.task, v) then past
    else if Forgets(lens.task, v) then []
    else past + Results(lens.(replyTo := None), v.act.roots)
         + (if v.rows[lens.task].teams.messageId.Some? then Results(lens, PagesRead(v.act.answers)) else [])
  }

  /** What a reading selects is the earliest of what it had and of what it reads. */
  lemma {:induction false} ReadSelects(lens: Lens, answers: seq<Page>, cursor: nat, told: seq<Candidate>)
    ensures var swept := Read(lens, answers, cursor, Best(told));
            && (swept.Broken? <==> Fails(answers))
            && (swept.Swept? ==> swept.best == Best(told + Results(lens, PagesRead(answers))))
    decreases |answers|
  {
    hide Results, Best, Earliest;
    if answers == [] {
      assert told + [] == told;
      NoResults(lens);
    } else if answers[0].Page? {
      var values := answers[0].values;
      BestOfBoth(told, Results(lens, values));
      if answers[0].next.None? {
        assert values + [] == values;
      } else {
        ReadSelects(lens, answers[1..], answers[0].next.value, told + Results(lens, values));
        ResultsOfBoth(lens, values, PagesRead(answers[1..]));
        assert told + (Results(lens, values) + Results(lens, PagesRead(answers[1..]))) == told + Results(lens, values) + Results(lens, PagesRead(answers[1..]));
      }
    }
  }

  lemma NoResults(lens: Lens)
    ensures Results(lens, []) == []
  {
  }

  /** What the row holds, as a candidate or as its result. */
  function Holds(row: Row): Option<Candidate> {
    if row.teams.result.Some? then row.teams.result else row.teams.candidate
  }

  /** A row holds the earliest of what its rounds found since its sweep last failed. */
  predicate HoldsBest(rows: map<string, Row>, task: string, told: seq<Candidate>) {
    if task in rows then Holds(rows[task]) == Best(told) else told == []
  }

  lemma {:induction false} RoundHolds(max: nat, s: Office, act: Act, s': Office, lens: Lens, told: seq<Candidate>)
    requires OfficeInv(max, s) && AllSweepOk(s) && ActOk(max, s, act, s') && act.Collect? && act.task == lens.task && act.responder == lens.responder
    requires Under(lens, s.rows, lens.task) && HoldsBest(s.rows, lens.task, told)
    ensures HoldsBest(s'.rows, lens.task, ToldAfter(lens, told, Visit(s.rows, act)))
  {
    hide ActOk, Read, Earliest, Best, Results, Fails, PagesRead, OfficeInv;
    CollectIs(max, s, act, s');
    var row := s.rows[lens.task];
    assert SweepOk(row);
    var roots := Results(lens.(replyTo := None), act.roots);
    BestOfBoth(told, roots);
    BestIsMinimum([]);
    if row.teams.messageId.Some? {
      assert LensOf(act.responder, lens.task, row) == lens;
      ReadSelects(lens, act.answers, StartOf(HuntOf(row)), told + roots);
    } else {
      assert told + roots + [] == told + roots;
    }
  }

  lemma QuietHolds(max: nat, s: Office, act: Act, s': Office, lens: Lens, told: seq<Candidate>)
    requires OfficeInv(max, s) && AllSweepOk(s) && ActOk(max, s, act, s') && !(act.Collect? && act.task == lens.task)
    requires HoldsBest(s.rows, lens.task, told)
    ensures HoldsBest(s'.rows, lens.task, told)
  {
    hide ActOk, AllSweepOk, OfficeInv, Best;
    BestIsMinimum([]);
    if lens.task in s.rows { RowsStay(max, s, act, s', lens.task); }
    if lens.task in s'.rows { RowQuiet(max, s, act, s', lens.task); }
  }

  /** Over every history, whatever the reads bring. */
  lemma {:induction false} HistoryHolds(max: nat, run: seq<Office>, acts: seq<Act>, lens: Lens)
    requires IsHistory(max, run, acts) && OneResponder(lens.responder, lens.task, Visits(run, acts))
    requires Under(lens, run[|acts|].rows, lens.task)
    ensures HoldsBest(run[|acts|].rows, lens.task, Told(lens, Visits(run, acts)))
    decreases |acts|
  {
    hide ActOk, OfficeInv, AllSweepOk, HoldsBest, Under, ToldAfter;
    if acts == [] {
      assert HoldsBest(map[], lens.task, []) by { NothingHeld(lens.task); }
    } else {
      var n := |acts| - 1;
      var s, s', v := run[n], run[n + 1], Visit(run[n].rows, acts[n]);
      var past := Visits(run[..n + 1], acts[..n]);
      assert ActOk(max, run[n], acts[n], run[n + 1]);
      HistoryPrefix(max, run, acts, n);
      RowsAreSweepOk(max, run, acts, n);
      UnderBefore(max, s, acts[n], s', lens, lens.task);
      LastTold(lens, past, v);
      HistoryHolds(max, run[..n + 1], acts[..n], lens);
      if acts[n].Collect? && acts[n].task == lens.task {
        CollectIs(max, s, acts[n], s');
        RoundHolds(max, s, acts[n], s', lens, Told(lens, past));
      } else {
        QuietHolds(max, s, acts[n], s', lens, Told(lens, past));
        OtherTold(lens, Told(lens, past), v);
      }
    }
  }

  lemma NothingHeld(task: string)
    ensures HoldsBest(map[], task, [])
  {
  }

  lemma OtherTold(lens: Lens, told: seq<Candidate>, v: Visit)
    ensures !(v.act.Collect? && v.act.task == lens.task) ==> ToldAfter(lens, told, v) == told
  {
  }

  lemma {:induction false} LastTold(lens: Lens, past: seq<Visit>, v: Visit)
    ensures var visits := past + (if v.act.Collect? then [v] else []);
            && Told(lens, visits) == (if v.act.Collect? then ToldAfter(lens, Told(lens, past), v) else Told(lens, past))
            && (OneResponder(lens.responder, lens.task, visits) ==>
                  OneResponder(lens.responder, lens.task, past) && (LooksFor(lens.task, v) ==> v.act.responder == lens.responder))
  {
    hide Results, Fails, PagesRead;
    var visits := past + [v];
    if v.act.Collect? {
      assert visits[..|visits| - 1] == past && visits[|visits| - 1] == v;
      assert forall k :: 0 <= k < |past| ==> visits[k] == past[k];
    } else {
      assert past + [] == past;
    }
  }

  /** What was found is what the messages tell. */
  lemma {:induction false} ToldIsHeard(lens: Lens, visits: seq<Visit>, c: Candidate)
    ensures c in Told(lens, visits) <==>
              || c in Results(lens.(replyTo := None), RootsHeard(lens.task, visits))
              || c in Results(lens, RepliesHeard(lens.task, visits))
  {
    hide Results, Fails, PagesRead;
    NoResults(lens);
    NoResults(lens.(replyTo := None));
    if visits != [] {
      var past, v := visits[..|visits| - 1], visits[|visits| - 1];
      ToldIsHeard(lens, past, c);
      if LooksFor(lens.task, v) {
        ResultsOfBoth(lens.(replyTo := None), RootsHeard(lens.task, past), v.act.roots);
        ResultsOfBoth(lens, RepliesHeard(lens.task, past), PagesRead(v.act.answers));
      }
    }
  }

  /** The result in a row, in any history, whatever the reads bring: a message among the
      roots or, once the task's own message is known, among the replies read since the
      sweep last failed tells it, and no message read since then tells an earlier one. */
  lemma {:induction false} ResultIsHeard(max: nat, run: seq<Office>, acts: seq<Act>, responder: string, task: string)
    requires IsHistory(max, run, acts) && OneResponder(responder, task, Visits(run, acts))
    requires task in run[|acts|].rows && run[|acts|].rows[task].teams.result.Some?
    ensures run[|acts|].rows[task].teams.dispatch.Some?
    ensures IsHeard(responder, task, run[|acts|].rows[task], Visits(run, acts))
  {
    hide IsHistory, Told, Results, RootsHeard, RepliesHeard, Visits, Before, OfficeInv, OneResponder, Tells;
    HistoryLength(max, run, acts);
    RowsAreSweepOk(max, run, acts, |acts|);
    var row := run[|acts|].rows[task];
    assert SweepOk(row);
    var lens, visits := LensOf(responder, task, row), Visits(run, acts);
    HistoryHolds(max, run, acts, lens);
    HeldIsHeard(lens, visits, row);
  }

  /** The reading comes to the last page of the thread. */
  predicate Ends(answers: seq<Page>) {
    answers != [] && answers[0].Page? && (answers[0].next.None? || Ends(answers[1..]))
  }

  lemma {:induction false} ReadEnds(lens: Lens, answers: seq<Page>, cursor: nat, best: Option<Candidate>)
    ensures var swept := Read(lens, answers, cursor, best); (swept.Swept? && swept.cursor.None?) <==> Ends(answers)
    decreases |answers|
  {
    hide Results, Best, Earliest;
    if answers != [] && answers[0].Page? && answers[0].next.Some? {
      ReadEnds(lens, answers[1..], answers[0].next.value, Earliest(best, Best(Results(lens, answers[0].values))));
    }
  }

  /** A round commits exactly if its scan of the roots succeeded, its reading came to the
      end of the thread if there is one, and a message read since the last failure tells a
      result. */
  lemma {:induction false} RoundCommits(max: nat, run: seq<Office>, acts: seq<Act>, responder: string, task: string)
    requires IsHistory(max, run, acts) && OneResponder(responder, task, Visits(run, acts))
    requires acts != [] && acts[|acts| - 1].Collect? && acts[|acts| - 1].task == task
    ensures task in run[|acts| - 1].rows && task in run[|acts|].rows && run[|acts|].rows[task].teams.dispatch.Some?
    ensures var before, row, act := run[|acts| - 1].rows[task], run[|acts|].rows[task], acts[|acts| - 1];
            row.phase == Resulted <==>
              act.scanned && (before.teams.messageId.Some? ==> Ends(act.answers)) && SomethingHeard(responder, task, row, Visits(run, acts))
  {
    hide ActOk, Told, Results, RootsHeard, RepliesHeard, Visits, Before, OfficeInv, OneResponder, Tells, Read, Best, Earliest, SomethingHeard;
    var n := |acts| - 1;
    var s, s', act, visits := run[n], run[n + 1], acts[n], Visits(run, acts);
    assert ActOk(max, run[n], acts[n], run[n + 1]);
    RowsAreSweepOk(max, run, acts, n);
    RowsAreSweepOk(max, run, acts, n + 1);
    CollectIs(max, s, act, s');
    var row, row' := s.rows[task], s'.rows[task];
    assert SweepOk(row) && SweepOk(row');
    var root := RootOf(act.responder, task, row, act.roots);
    TurnedFacts(act.responder, task, row, root, act.scanned, act.answers);
    var lens := LensOf(responder, task, row');
    HistoryHolds(max, run, acts, lens);
    HeardIfTold(lens, visits, row');
    ReadEnds(LensOf(act.responder, task, row), act.answers, StartOf(HuntOf(row)), Earliest(row.teams.candidate, root));
  }

  /** A message that was read tells a result of the task. */
  ghost predicate SomethingHeard(responder: string, task: string, row: Row, visits: seq<Visit>)
    requires row.teams.dispatch.Some?
  {
    || (exists m, c :: m in RootsHeard(task, visits) && Tells(m, responder, None, task, row.teams.dispatch.value, c))
    || (exists m, c :: m in RepliesHeard(task, visits) && Tells(m, responder, row.teams.messageId, task, row.teams.dispatch.value, c))
  }

  lemma {:induction false} HeardIfTold(lens: Lens, visits: seq<Visit>, row: Row)
    requires row.teams.dispatch == Some(lens.dispatch) && row.teams.messageId == lens.replyTo
    ensures Best(Told(lens, visits)).Some? <==> SomethingHeard(lens.responder, lens.task, row, visits)
  {
    hide Told, Results, RootsHeard, RepliesHeard, Before, Best, Tells;
    var told, root := Told(lens, visits), lens.(replyTo := None);
    var roots, replies := RootsHeard(lens.task, visits), RepliesHeard(lens.task, visits);
    BestIsMinimum(told);
    if told != [] {
      var c := told[0];
      ToldIsHeard(lens, visits, c);
      ResultsAreTold(root, roots, c);
      ResultsAreTold(lens, replies, c);
    }
    forall m, c | m in roots && Tells(m, lens.responder, None, lens.task, lens.dispatch, c) ensures told != [] {
      ToldIsHeard(lens, visits, c);
      ResultsAreTold(root, roots, c);
    }
    forall m, c | m in replies && Tells(m, lens.responder, lens.replyTo, lens.task, lens.dispatch, c) ensures told != [] {
      ToldIsHeard(lens, visits, c);
      ResultsAreTold(lens, replies, c);
    }
  }

  /** The row's result is told by a message that was read, and it is the earliest. */
  ghost predicate IsHeard(responder: string, task: string, row: Row, visits: seq<Visit>)
    requires row.teams.dispatch.Some? && row.teams.result.Some?
  {
    var r, dispatch, thread := row.teams.result.value, row.teams.dispatch.value, row.teams.messageId;
    var roots, replies := RootsHeard(task, visits), RepliesHeard(task, visits);
    && (|| (exists m :: m in roots && Tells(m, responder, None, task, dispatch, r))
        || (exists m :: m in replies && Tells(m, responder, thread, task, dispatch, r)))
    && (forall m, c :: m in roots && Tells(m, responder, None, task, dispatch, c) ==> !Before(c, r))
    && (forall m, c :: m in replies && Tells(m, responder, thread, task, dispatch, c) ==> !Before(c, r))
  }

  lemma {:induction false} HeldIsHeard(lens: Lens, visits: seq<Visit>, row: Row)
    requires row.teams.dispatch == Some(lens.dispatch) && row.teams.messageId == lens.replyTo && row.teams.result.Some?
    requires row.teams.result == Best(Told(lens, visits))
    ensures IsHeard(lens.responder, lens.task, row, visits)
  {
    hide Told, Results, RootsHeard, RepliesHeard, Before, Best, Tells;
    var r, root := row.teams.result.value, lens.(replyTo := None);
    var roots, replies := RootsHeard(lens.task, visits), RepliesHeard(lens.task, visits);
    BestIsMinimum(Told(lens, visits));
    ToldIsHeard(lens, visits, r);
    ResultsAreTold(root, roots, r);
    ResultsAreTold(lens, replies, r);
    forall m, c | m in roots && Tells(m, lens.responder, None, lens.task, lens.dispatch, c) ensures !Before(c, r) {
      ResultsAreTold(root, roots, c);
      ToldIsHeard(lens, visits, c);
    }
    forall m, c | m in replies && Tells(m, lens.responder, lens.replyTo, lens.task, lens.dispatch, c) ensures !Before(c, r) {
      ResultsAreTold(lens, replies, c);
      ToldIsHeard(lens, visits, c);
    }
  }

  /** So it is with the result in a row of the bridge, given the rounds it remembers. */
  lemma BridgeResultIsEarliest(b: B.Bridge, task: string, thread: seq<seq<Message>>)
    requires b.Valid() && SteadyVisits(b.responder, task, thread, b.visits)
    requires thread != [] && task in b.rows && b.rows[task].teams.result.Some?
    ensures b.rows[task].teams.dispatch.Some?
    ensures var row := b.rows[task];
            var lens, r, scanned := LensOf(b.responder, task, row), row.teams.result.value, ScannedOf(task, b.visits);
            && (r in scanned || r in Results(lens, Flat(thread)))
            && (forall other :: other in scanned ==> !Before(other, r))
            && (row.teams.messageId.Some? ==> forall other :: other in Results(lens, Flat(thread)) ==> !Before(other, r))
  {
    hide *;
    b.Parts();
    LastOffice(b);
    HistoryLength(b.maxOutstanding, b.offices, b.acts);
    RowResultIsEarliest(b.maxOutstanding, b.offices, b.acts, b.responder, task, thread);
  }

  /** The result in a row of the bridge is told by a message that its rounds read, from the
      configured responder, and no message that they read since the last failure tells an
      earlier one. */
  lemma BridgeResultIsHeard(b: B.Bridge, task: string)
    requires b.Valid() && task in b.rows && b.rows[task].teams.result.Some?
    ensures b.rows[task].teams.dispatch.Some? && IsHeard(b.responder, task, b.rows[task], b.visits)
  {
    hide *;
    b.Parts();
    LastOffice(b);
    HistoryLength(b.maxOutstanding, b.offices, b.acts);
    Responder(b, task);
    ResultIsHeard(b.maxOutstanding, b.offices, b.acts, b.responder, task);
  }

  lemma Responder(b: B.Bridge, task: string)
    requires b.Filed(b.rows)
    ensures OneResponder(b.responder, task, b.visits)
  {
  }

  lemma LastOffice(b: B.Bridge)
    requires b.Filed(b.rows)
    ensures IsHistory(b.maxOutstanding, b.offices, b.acts) && b.visits == Visits(b.offices, b.acts)
    ensures b.offices[|b.offices| - 1].rows == b.rows
  {
  }
}

/** Dispatching tasks to Teams: durable intent, one external post per attempt, and an
    outside world that may create the message late, lose it, or answer anything. */
module Posting {
  import opened Wrappers
  import opened Channel
  import opened Rows
  import opened Sweep

  /** A message that was, or may yet be, created for a task. */
  datatype Post = Post(task: string, dispatch: nat)

  /** The running attempt, and whether its request has left the process. */
  datatype Attempt = Attempt(task: string, emitted: bool)

  /** What the caller learns of one request. */
  datatype Outcome =
    | Created(id: nat)
    | NoId                 // a success without a usable message identity
    | NotSent              // known not to have reached Teams
    | Http(code: nat)      // an HTTP error
    | Lost                 // timeout, reset, unreadable answer

  /** Status codes that guarantee that nothing was created. */
  const DEFINITE := {400, 401, 403, 404, 405, 409, 411, 413, 415, 422, 429}
  const REFUSED := {400, 413, 415, 422}

  /** The durable intent: phase and dispatch identity, before the external effect. A task
      keeps its first dispatch identity. */
  function Intended(row: Row, token: nat): Row {
    row.(phase := Posting, teams := row.teams.(dispatch := if row.teams.dispatch.Some? then row.teams.dispatch else Some(token)))
  }

  function Linked(row: Row, id: nat, now: int): Row {
    row.(phase := Posted, teams := row.teams.(messageId := Some(id), postedAt := now))
  }

  /** The row after an answer. */
  function Answered(row: Row, outcome: Outcome, now: int): Row {
    match outcome
    case Created(id) => Linked(row, id, now)
    case NotSent => row.(phase := Queued)
    case Http(code) =>
      if code in REFUSED then row.(phase := Rejected)
      else if code in DEFINITE then row.(phase := Queued)
      else row.(phase := Ambiguous)
    case _ => row.(phase := Ambiguous)
  }

  /** An unresolved dispatch after a successful scan of the channel's roots. */
  function Reconciled(row: Row, found: Option<nat>, now: int): Row {
    if row.phase !in {Posting, Ambiguous} || row.teams.messageId.Some? then row
    else if found.Some? then Linked(row, found.value, now)
    else row.(phase := Ambiguous)
  }

  predicate Unresolved(row: Row) {
    row.phase in {Posting, Ambiguous} && row.teams.messageId.None?
  }

  // ------------------------------------------------------------ state and steps

  datatype Office = Office(
    rows: map<string, Row>,
    attempt: Option<Attempt>,
    flight: multiset<Post>,
    made: multiset<Post>,
    reposts: map<string, nat>)

  const EMPTY_OFFICE := Office(map[], None, multiset{}, multiset{}, map[])

  function Reposts(s: Office, task: string): nat {
    if task in s.reposts then s.reposts[task] else 0
  }

  function ActiveTasks(rows: map<string, Row>): set<string> {
    set t | t in rows && Active(rows[t].phase)
  }

  /** The dispatch identity of another task is never drawn again. */
  predicate Fresh(rows: map<string, Row>, token: nat) {
    forall t :: t in rows ==> rows[t].teams.dispatch != Some(token)
  }

  /** What feed intake and reporting may do to the rows: close a task, add one, or change
      what is pending. */
  ghost predicate ChannelSide(rows: map<string, Row>, rows': map<string, Row>) {
    && rows.Keys <= rows'.Keys
    && (forall t :: t in rows ==> rows'[t].teams == rows[t].teams && (rows'[t].phase == rows[t].phase || Closed(rows'[t].phase)))
    && (forall t :: t in rows' && t !in rows ==> rows'[t].teams == NO_TEAMS && rows'[t].phase in {Queued, Rejected})
  }

  datatype Act =
    | Channel(rows: map<string, Row>)
    | Intend(task: string, token: nat)
    | Emit
    | Arrive(post: Post)                   // Teams creates a message, maybe much later
    | Vanish(post: Post)
    | Answer(outcome: Outcome, now: int)
    | Die                                  // the process stops in the middle of an attempt
    | Reconcile(task: string, found: Option<nat>, now: int)
    | Adopt(task: string, id: nat, now: int)
    | Repost(task: string)                 // operator: asserts that nothing was posted
    | Abandon(task: string)                // operator
    | Collect(task: string, responder: string, roots: seq<Message>, scanned: bool, answers: seq<Page>) // one round, with the roots that were read

  /** The earliest valid result of a task among the roots that were read. */
  function RootOf(responder: string, task: string, row: Row, roots: seq<Message>): Option<Candidate> {
    if row.teams.dispatch.Some? then Best(Results(Lens(responder, None, task, row.teams.dispatch.value), roots)) else None
  }

  /** The row after one round. */
  function Visited(responder: string, task: string, row: Row, roots: seq<Message>, scanned: bool, answers: seq<Page>): Row
    requires Active(row.phase) && row.teams.dispatch.Some?
  {
    Turned(responder, task, row, RootOf(responder, task, row, roots), scanned, answers)
  }

  ghost predicate ActOk(max: nat, s: Office, act: Act, s': Office) {
    match act
    case Channel(rows) => s.attempt.None? && ChannelSide(s.rows, rows) && s' == s.(rows := rows)
    case Intend(task, token) =>
      && s.attempt.None? && task in s.rows && s.rows[task].phase == Queued
      && |ActiveTasks(s.rows)| < max
      && (s.rows[task].teams.dispatch.None? ==> Fresh(s.rows, token))
      && s' == s.(rows := s.rows[task := Intended(s.rows[task], token)], attempt := Some(Attempt(task, false)))
    case Emit =>
      && s.attempt.Some? && !s.attempt.value.emitted
      && var task := s.attempt.value.task;
         task in s.rows && s.rows[task].teams.dispatch.Some?
         && s' == s.(attempt := Some(Attempt(task, true)),
                     flight := s.flight + multiset{Post(task, s.rows[task].teams.dispatch.value)})
    case Arrive(post) => post in s.flight && s' == s.(flight := s.flight - multiset{post}, made := s.made + multiset{post})
    case Vanish(post) => post in s.flight && s' == s.(flight := s.flight - multiset{post})
    case Answer(outcome, now) =>
      && s.attempt.Some? && s.attempt.value.task in s.rows
      && var task := s.attempt.value.task;
         && (outcome.NotSent? ==> !s.attempt.value.emitted)
         && (outcome.Created? ==> s.attempt.value.emitted)
         && var definite := outcome.Http? && outcome.code in DEFINITE;
            && (definite ==> s.attempt.value.emitted && s.rows[task].teams.dispatch.Some?
                             && Post(task, s.rows[task].teams.dispatch.value) in s.flight)
            && s' == s.(rows := s.rows[task := Answered(s.rows[task], outcome, now)], attempt := None,
                        flight := if definite then s.flight - multiset{Post(task, s.rows[task].teams.dispatch.value)} else s.flight)
    case Die => s' == s.(attempt := None)
    case Reconcile(task, found, now) =>
      s.attempt.None? && task in s.rows && s' == s.(rows := s.rows[task := Reconciled(s.rows[task], found, now)])
    case Adopt(task, id, now) =>
      s.attempt.None? && task in s.rows && Unresolved(s.rows[task]) && s' == s.(rows := s.rows[task := Linked(s.rows[task], id, now)])
    case Repost(task) =>
      && s.attempt.None? && task in s.rows && Unresolved(s.rows[task])
      && s' == s.(rows := s.rows[task := s.rows[task].(phase := Queued)], reposts := s.reposts[task := Reposts(s, task) + 1])
    case Abandon(task) =>
      && s.attempt.None? && task in s.rows && (s.rows[task].phase == Queued || Active(s.rows[task].phase))
      && s' == s.(rows := s.rows[task := s.rows[task].(phase := Rejected)])
    case Collect(task, responder, roots, scanned, answers) =>
      && s.attempt.None? && task in s.rows && Active(s.rows[task].phase) && s.rows[task].teams.dispatch.Some?
      && s' == s.(rows := s.rows[task := Visited(responder, task, s.rows[task], roots, scanned, answers)])
  }

  predicate OneRow(rows: map<string, Row>, t: string, rows': map<string, Row>) {
    t in rows && t in rows' && rows' == rows[t := rows'[t]] && TeamsChange(rows[t], rows'[t])
  }

  // ------------------------------------------------------------ invariant

  /** Messages created or still possible for a task under a dispatch identity. */
  function Total(s: Office, task: string, dispatch: nat): nat {
    (s.flight + s.made)[Post(task, dispatch)]
  }

  /** Whether the next request for the task may still be sent. */
  predicate MaySend(s: Office, task: string) {
    (task in s.rows && s.rows[task].phase == Queued) || s.attempt == Some(Attempt(task, false))
  }

  ghost predicate AttemptOk(s: Office) {
    s.attempt.Some? ==>
      var t := s.attempt.value.task;
      t in s.rows && s.rows[t].phase == Posting && s.rows[t].teams.dispatch.Some?
  }

  ghost predicate PostsKnown(s: Office) {
    forall post {:trigger post.task} :: post in s.flight || post in s.made ==>
      post.task in s.rows && s.rows[post.task].teams.dispatch == Some(post.dispatch)
  }

  /** The task is within its budget of one message and one more per repost; while the
      next request may still be sent, the one is not used up. */
  ghost predicate WithinBudget(s: Office, t: string) {
    t in s.rows && s.rows[t].teams.dispatch.Some? ==>
      Total(s, t, s.rows[t].teams.dispatch.value) <= Reposts(s, t) + (if MaySend(s, t) then 0 else 1)
  }

  ghost predicate DistinctDispatch(rows: map<string, Row>) {
    forall t, u {:trigger rows[t], rows[u]} :: t in rows && u in rows && t != u && rows[t].teams.dispatch.Some? ==>
      rows[t].teams.dispatch != rows[u].teams.dispatch
  }

  /** A dispatched task has a dispatch identity. */
  predicate Dispatched(rows: map<string, Row>) {
    forall t :: t in rows && Active(rows[t].phase) ==> rows[t].teams.dispatch.Some?
  }

  ghost predicate OfficeInv(max: nat, s: Office) {
    && AttemptOk(s)
    && Dispatched(s.rows)
    && PostsKnown(s)
    && (forall t :: WithinBudget(s, t))
    && DistinctDispatch(s.rows)
    && |ActiveTasks(s.rows)| <= max
  }

  lemma ActiveChange(rows: map<string, Row>, task: string, row: Row)
    ensures |ActiveTasks(rows[task := row])| <= |ActiveTasks(rows)| + 1
    ensures !Active(row.phase) || (task in rows && Active(rows[task].phase)) ==> |ActiveTasks(rows[task := row])| <= |ActiveTasks(rows)|
  {
    var a, b := ActiveTasks(rows), ActiveTasks(rows[task := row]);
    assert b <= a + {task};
    if !Active(row.phase) || (task in rows && Active(rows[task].phase)) {
      assert b <= a;
      Subset(b, a);
    } else {
      Subset(b, a + {task});
    }
  }

  lemma {:induction false} Subset(a: set<string>, b: set<string>)
    requires a <= b
    ensures |a| <= |b|
    decreases |a|
  {
    if a != {} {
      var x :| x in a;
      Subset(a - {x}, b - {x});
    }
  }

  /** A step that changes the row of one task and its own bookkeeping. */
  lemma OneTask(max: nat, s: Office, task: string, s': Office)
    requires OfficeInv(max, s) && task in s.rows && task in s'.rows
    requires s' == Office(s.rows[task := s'.rows[task]], s'.attempt, s'.flight, s.made, s'.reposts)
    requires Active(s'.rows[task].phase) ==> s'.rows[task].teams.dispatch.Some?
    requires || s'.rows[task].teams.dispatch == s.rows[task].teams.dispatch
             || (s.rows[task].teams.dispatch.None? && s'.rows[task].teams.dispatch.Some? && Fresh(s.rows, s'.rows[task].teams.dispatch.value))
    requires s'.flight <= s.flight
    requires s.attempt.None? || s.attempt.value.task == task
    requires AttemptOk(s') && (s'.attempt.Some? ==> s'.attempt.value.task == task)
    requires forall u :: u != task ==> Reposts(s', u) == Reposts(s, u)
    requires WithinBudget(s', task)
    requires |ActiveTasks(s'.rows)| <= max
    ensures OfficeInv(max, s')
  {
    hide Reposts, AttemptOk;
    KnownAfter(s, task, s');
    DistinctAfter(s.rows, task, s'.rows[task]);
    forall t ensures WithinBudget(s', t) {
      if t != task && t in s'.rows {
        assert WithinBudget(s, t) && s'.rows[t] == s.rows[t];
        assert MaySend(s', t) == MaySend(s, t);
      }
    }
  }

  lemma KnownAfter(s: Office, task: string, s': Office)
    requires PostsKnown(s) && task in s.rows && task in s'.rows
    requires s'.rows == s.rows[task := s'.rows[task]] && s'.flight <= s.flight && s'.made == s.made
    requires s.rows[task].teams.dispatch.Some? ==> s'.rows[task].teams.dispatch == s.rows[task].teams.dispatch
    ensures PostsKnown(s')
  {
  }

  lemma DistinctAfter(rows: map<string, Row>, task: string, row: Row)
    requires DistinctDispatch(rows) && task in rows
    requires || row.teams.dispatch == rows[task].teams.dispatch
             || (row.teams.dispatch.Some? && Fresh(rows, row.teams.dispatch.value))
    ensures DistinctDispatch(rows[task := row])
  {
  }

  lemma TotalFacts(max: nat, s: Office, task: string)
    requires OfficeInv(max, s) && task in s.rows
    ensures s.rows[task].teams.dispatch.Some? ==>
              Total(s, task, s.rows[task].teams.dispatch.value) <= Reposts(s, task) + (if MaySend(s, task) then 0 else 1)
    ensures s.rows[task].teams.dispatch.None? ==> forall d :: Total(s, task, d) == 0
    ensures |ActiveTasks(s.rows)| <= max
    ensures Active(s.rows[task].phase) ==> s.rows[task].teams.dispatch.Some?
  {
    hide Reposts, MaySend, DistinctDispatch, AttemptOk;
    assert WithinBudget(s, task);
    forall d | s.rows[task].teams.dispatch.None? ensures Total(s, task, d) == 0 {
      assert Post(task, d).task == task;
      assert Post(task, d) !in s.flight && Post(task, d) !in s.made;
    }
  }

  lemma ActKeepsInv(max: nat, s: Office, act: Act, s': Office)
    requires OfficeInv(max, s) && ActOk(max, s, act, s')
    ensures OfficeInv(max, s')
  {
    match act
    case Channel(rows) => ChannelKeepsInv(max, s, rows, s');
    case Emit => EmitKeepsInv(max, s, s');
    case Arrive(post) => NetworkKeepsInv(max, s, s');
    case Vanish(post) => NetworkKeepsInv(max, s, s');
    case Die => DieKeepsInv(max, s, s');
    case _ => TaskActKeepsInv(max, s, act, s');
  }

  lemma ChannelKeepsInv(max: nat, s: Office, rows: map<string, Row>, s': Office)
    requires OfficeInv(max, s) && ActOk(max, s, Channel(rows), s')
    ensures OfficeInv(max, s')
  {
    hide Reposts, Total, OfficeInv, ActiveTasks, WithinBudget, PostsKnown, DistinctDispatch, AttemptOk;
    ChannelActive(max, s, rows);
    ChannelKnown(max, s, rows);
    forall t ensures WithinBudget(s', t) {
      ChannelBudget(max, s, rows, t);
    }
    AssembleInv(max, s');
  }

  lemma ChannelBudget(max: nat, s: Office, rows: map<string, Row>, t: string)
    requires OfficeInv(max, s) && s.attempt.None? && ChannelSide(s.rows, rows)
    ensures WithinBudget(s.(rows := rows), t)
  {
    hide ActiveTasks, DistinctDispatch, PostsKnown, AttemptOk;
    assert WithinBudget(s, t);
    if t in s.rows {
      assert rows[t].teams == s.rows[t].teams;
    }
  }

  lemma ChannelActive(max: nat, s: Office, rows: map<string, Row>)
    requires OfficeInv(max, s) && ChannelSide(s.rows, rows)
    ensures |ActiveTasks(rows)| <= max
  {
    hide WithinBudget, PostsKnown, DistinctDispatch, AttemptOk;
    assert ActiveTasks(rows) <= ActiveTasks(s.rows);
    Subset(ActiveTasks(rows), ActiveTasks(s.rows));
  }

  lemma ChannelKnown(max: nat, s: Office, rows: map<string, Row>)
    requires OfficeInv(max, s) && s.attempt.None? && ChannelSide(s.rows, rows)
    ensures PostsKnown(s.(rows := rows)) && DistinctDispatch(rows) && AttemptOk(s.(rows := rows)) && Dispatched(rows)
  {
    hide WithinBudget, ActiveTasks;
  }

  lemma SameTotals(s: Office, s': Office, t: string)
    requires s'.flight + s'.made <= s.flight + s.made
    ensures forall d :: Total(s', t, d) <= Total(s, t, d)
    ensures s'.flight + s'.made == s.flight + s.made ==> forall d :: Total(s', t, d) == Total(s, t, d)
  {
  }

  lemma AssembleInv(max: nat, s: Office)
    requires AttemptOk(s) && Dispatched(s.rows) && PostsKnown(s) && (forall t :: WithinBudget(s, t)) && DistinctDispatch(s.rows) && |ActiveTasks(s.rows)| <= max
    ensures OfficeInv(max, s)
  {
  }

  lemma EmitKeepsInv(max: nat, s: Office, s': Office)
    requires OfficeInv(max, s) && ActOk(max, s, Emit, s')
    ensures OfficeInv(max, s')
  {
    hide ActiveTasks, DistinctDispatch;
    forall t ensures WithinBudget(s', t) {
      if t in s.rows { TotalFacts(max, s, t); }
    }
  }

  lemma NetworkKeepsInv(max: nat, s: Office, s': Office)
    requires OfficeInv(max, s) && s' == s.(flight := s'.flight, made := s'.made)
    requires s'.flight <= s.flight && s'.flight + s'.made <= s.flight + s.made
    ensures OfficeInv(max, s')
  {
    hide ActiveTasks, DistinctDispatch;
    forall post | post in s'.flight || post in s'.made
      ensures post.task in s'.rows && s'.rows[post.task].teams.dispatch == Some(post.dispatch)
    {
      assert post in s'.flight + s'.made;
      assert post in s.flight + s.made;
    }
    forall t ensures WithinBudget(s', t) {
      if t in s.rows { TotalFacts(max, s, t); }
      SameTotals(s, s', t);
    }
  }

  lemma DieKeepsInv(max: nat, s: Office, s': Office)
    requires OfficeInv(max, s) && s' == s.(attempt := None)
    ensures OfficeInv(max, s')
  {
    hide ActiveTasks, DistinctDispatch;
    forall t ensures WithinBudget(s', t) {
      if t in s.rows { TotalFacts(max, s, t); }
    }
  }

  lemma TaskActKeepsInv(max: nat, s: Office, act: Act, s': Office)
    requires OfficeInv(max, s) && ActOk(max, s, act, s')
    requires act.Intend? || act.Answer? || act.Reconcile? || act.Adopt? || act.Repost? || act.Abandon? || act.Collect?
    ensures OfficeInv(max, s')
  {
    if act.Intend? {
      IntendKeepsInv(max, s, act, s');
    } else if act.Answer? {
      AnswerKeepsInv(max, s, act, s');
    } else {
      RowActKeepsInv(max, s, act, s');
    }
  }

  lemma IntendKeepsInv(max: nat, s: Office, act: Act, s': Office)
    requires OfficeInv(max, s) && ActOk(max, s, act, s') && act.Intend?
    ensures OfficeInv(max, s')
  {
    hide OfficeInv, ActiveTasks, Fresh;
    TotalFacts(max, s, act.task);
    ActiveChange(s.rows, act.task, s'.rows[act.task]);
    SameTotals(s, s', act.task);
    OneTask(max, s, act.task, s');
  }

  lemma AnswerKeepsInv(max: nat, s: Office, act: Act, s': Office)
    requires OfficeInv(max, s) && ActOk(max, s, act, s') && act.Answer?
    ensures OfficeInv(max, s')
  {
    hide OfficeInv, ActiveTasks;
    AttemptFacts(max, s);
    var task := s.attempt.value.task;
    TotalFacts(max, s, task);
    ActiveChange(s.rows, task, s'.rows[task]);
    SameTotals(s, s', task);
    OneTask(max, s, task, s');
  }

  lemma RowActKeepsInv(max: nat, s: Office, act: Act, s': Office)
    requires OfficeInv(max, s) && ActOk(max, s, act, s')
    requires act.Reconcile? || act.Adopt? || act.Repost? || act.Abandon? || act.Collect?
    ensures OfficeInv(max, s')
  {
    hide OfficeInv, ActiveTasks, Total, Turned;
    if act.Collect? { TurnedFacts(act.responder, act.task, s.rows[act.task], RootOf(act.responder, act.task, s.rows[act.task], act.roots), act.scanned, act.answers); }
    TotalFacts(max, s, act.task);
    ActiveChange(s.rows, act.task, s'.rows[act.task]);
    SameTotals(s, s', act.task);
    OneTask(max, s, act.task, s');
  }

  lemma AttemptFacts(max: nat, s: Office)
    requires OfficeInv(max, s)
    ensures s.attempt.Some? ==>
              && s.attempt.value.task in s.rows
              && s.rows[s.attempt.value.task].phase == Posting && s.rows[s.attempt.value.task].teams.dispatch.Some?
  {
  }

  // ------------------------------------------------------------ histories

  /** A run of the dispatch with the acts that make it. */
  ghost predicate IsHistory(max: nat, run: seq<Office>, acts: seq<Act>) {
    && |run| == |acts| + 1 && run[0] == EMPTY_OFFICE
    && forall i {:trigger acts[i]} :: 0 <= i < |acts| ==> ActOk(max, run[i], acts[i], run[i + 1])
  }

  lemma HistoryPrefix(max: nat, run: seq<Office>, acts: seq<Act>, n: nat)
    requires IsHistory(max, run, acts) && n <= |acts|
    ensures IsHistory(max, run[..n + 1], acts[..n])
  {
    hide ActOk;
    forall i {:trigger acts[..n][i]} | 0 <= i < n ensures ActOk(max, run[..n + 1][i], acts[..n][i], run[..n + 1][i + 1]) {
      assert acts[..n][i] == acts[i];
    }
  }

  lemma HistoryLength(max: nat, run: seq<Office>, acts: seq<Act>)
    requires IsHistory(max, run, acts)
    ensures |run| == |acts| + 1
  {
  }

  lemma LongerHistory(max: nat, run: seq<Office>, acts: seq<Act>, act: Act, s': Office)
    requires IsHistory(max, run, acts) && ActOk(max, run[|run| - 1], act, s')
    ensures IsHistory(max, run + [s'], acts + [act])
  {
    hide ActOk;
    var more, longer := acts + [act], run + [s'];
    forall i {:trigger more[i]} | 0 <= i < |more| ensures ActOk(max, longer[i], more[i], longer[i + 1]) {
      if i < |acts| { assert ActOk(max, run[i], acts[i], run[i + 1]); }
    }
  }

  /** One round of collecting, with the rows it found. */
  datatype Visit = Visit(rows: map<string, Row>, act: Act)

  /** The rounds of a history. */
  ghost function Visits(run: seq<Office>, acts: seq<Act>): seq<Visit>
    requires |run| == |acts| + 1
  {
    if acts == [] then []
    else
      var n := |acts| - 1;
      Visits(run[..n + 1], acts[..n]) + (if acts[n].Collect? then [Visit(run[n].rows, acts[n])] else [])
  }

  lemma VisitsMore(run: seq<Office>, acts: seq<Act>, act: Act, s': Office)
    requires |run| == |acts| + 1
    ensures Visits(run + [s'], acts + [act]) == Visits(run, acts) + (if act.Collect? then [Visit(run[|acts|].rows, act)] else [])
  {
    var longer, more := run + [s'], acts + [act];
    assert longer[..|acts| + 1] == run && more[..|acts|] == acts;
  }

  // ------------------------------------------------------------ whole runs

  ghost predicate OfficeCanStep(max: nat, s: Office, s': Office) {
    exists act: Act :: ActOk(max, s, act, s')
  }

  ghost predicate OfficeRun(max: nat, run: seq<Office>) {
    |run| > 0 &&
    if |run| == 1 then run[0] == EMPTY_OFFICE
    else OfficeRun(max, run[..|run| - 1]) && OfficeCanStep(max, run[|run| - 2], run[|run| - 1])
  }

  /** Runs and histories are the same thing. */
  lemma {:induction false} RunHasHistory(max: nat, run: seq<Office>)
    ensures OfficeRun(max, run) <==> exists acts :: IsHistory(max, run, acts)
    decreases |run|
  {
    hide ActOk;
    if |run| == 1 {
      if OfficeRun(max, run) { assert IsHistory(max, run, []); }
    } else if |run| > 1 {
      var past := run[..|run| - 1];
      RunHasHistory(max, past);
      if OfficeRun(max, run) {
        var acts :| IsHistory(max, past, acts);
        var act: Act :| ActOk(max, run[|run| - 2], act, run[|run| - 1]);
        LongerHistory(max, past, acts, act, run[|run| - 1]);
        assert past + [run[|run| - 1]] == run;
      }
      if acts :| IsHistory(max, run, acts) {
        HistoryPrefix(max, run, acts, |acts| - 1);
        assert run[..|acts|] == past;
        assert ActOk(max, run[|acts| - 1], acts[|acts| - 1], run[|acts| - 1 + 1]);
      }
    }
  }

  lemma {:induction false} OfficeRunInv(max: nat, run: seq<Office>, i: nat)
    requires OfficeRun(max, run) && i < |run|
    ensures OfficeInv(max, run[i])
    decreases |run|
  {
    hide ActOk;
    if |run| == 1 {
      assert ActiveTasks(run[0].rows) == {};
    } else {
      OfficeRunInv(max, run[..|run| - 1], if i < |run| - 1 then i else |run| - 2);
      if i == |run| - 1 {
        var act: Act :| ActOk(max, run[|run| - 2], act, run[|run| - 1]);
        ActKeepsInv(max, run[|run| - 2], act, run[|run| - 1]);
      }
    }
  }

  /** In every run, with crashes at any step and any answer of Teams, also late ones:
      every message of a task carries the task's one dispatch identity, and there are at
      most one more of them than the operator's reposts, even counting requests that may
      still take effect. */
  lemma AtMostOnePostPerRepost(max: nat, run: seq<Office>, i: nat, task: string, dispatch: nat)
    requires OfficeRun(max, run) && i < |run|
    ensures Total(run[i], task, dispatch) <= 1 + Reposts(run[i], task)
    ensures Total(run[i], task, dispatch) > 0 ==> task in run[i].rows && run[i].rows[task].teams.dispatch == Some(dispatch)
  {
    OfficeRunInv(max, run, i);
    var s := run[i];
    if Total(s, task, dispatch) > 0 {
      assert Post(task, dispatch) in s.flight + s.made;
      assert Post(task, dispatch) in s.flight || Post(task, dispatch) in s.made;
      TotalFacts(max, s, task);
    }
  }

  /** A message of one task is never one of another, and a task never changes its
      dispatch identity. */
  lemma {:induction false} DispatchIsForever(max: nat, run: seq<Office>, i: nat, j: nat, task: string)
    requires OfficeRun(max, run) && i <= j < |run|
    requires task in run[i].rows && run[i].rows[task].teams.dispatch.Some?
    ensures task in run[j].rows && run[j].rows[task].teams.dispatch == run[i].rows[task].teams.dispatch
    ensures forall other :: other in run[j].rows && other != task ==>
              run[j].rows[other].teams.dispatch != run[i].rows[task].teams.dispatch
    decreases |run|
  {
    hide OfficeRun;
    OfficeRunInv(max, run, j);
    if i < j {
      OfficeRunPrefix(max, run, j);
      DispatchIsForever(max, run[..j], i, j - 1, task);
      var act: Act :| ActOk(max, run[j - 1], act, run[j]);
      DispatchStays(max, run[j - 1], act, run[j], task);
    }
  }

  lemma {:induction false} OfficeRunPrefix(max: nat, run: seq<Office>, j: nat)
    requires OfficeRun(max, run) && 0 < j < |run|
    ensures OfficeRun(max, run[..j]) && OfficeCanStep(max, run[j - 1], run[j])
    decreases |run|
  {
    if j < |run| - 1 {
      OfficeRunPrefix(max, run[..|run| - 1], j);
      assert run[..|run| - 1][..j] == run[..j];
    }
  }

  predicate KeepsDispatch(s: Office, s': Office, task: string) {
    task in s.rows && s.rows[task].teams.dispatch.Some? ==> task in s'.rows && s'.rows[task].teams.dispatch == s.rows[task].teams.dispatch
  }

  lemma DispatchStays(max: nat, s: Office, act: Act, s': Office, task: string)
    requires ActOk(max, s, act, s')
    ensures KeepsDispatch(s, s', task)
  {
    hide ActOk, KeepsDispatch;
    match act
    case Channel(_) => ChannelKeepsDispatch(max, s, act, s', task);
    case Collect(_, _, _, _, _) => CollectKeepsDispatch(max, s, act, s', task);
    case _ => OthersKeepDispatch(max, s, act, s', task);
  }

  lemma ChannelKeepsDispatch(max: nat, s: Office, act: Act, s': Office, task: string)
    requires ActOk(max, s, act, s') && act.Channel?
    ensures KeepsDispatch(s, s', task)
  {
  }

  lemma CollectKeepsDispatch(max: nat, s: Office, act: Act, s': Office, task: string)
    requires ActOk(max, s, act, s') && act.Collect?
    ensures KeepsDispatch(s, s', task)
  {
    hide Turned, RootOf;
    TurnedFacts(act.responder, act.task, s.rows[act.task], RootOf(act.responder, act.task, s.rows[act.task], act.roots), act.scanned, act.answers);
  }

  lemma OthersKeepDispatch(max: nat, s: Office, act: Act, s': Office, task: string)
    requires ActOk(max, s, act, s') && !act.Channel? && !act.Collect?
    ensures KeepsDispatch(s, s', task)
  {
    hide ActiveTasks, Reposts, Fresh;
  }

  /** The number of dispatched or ambiguous tasks never exceeds the configured bound. */
  lemma OutstandingIsBounded(max: nat, run: seq<Office>, i: nat)
    requires OfficeRun(max, run) && i < |run|
    ensures |set t | t in run[i].rows && run[i].rows[t].phase in {Posting, Ambiguous, Posted}| <= max
  {
    OfficeRunInv(max, run, i);
    assert ActiveTasks(run[i].rows) == set t | t in run[i].rows && run[i].rows[t].phase in {Posting, Ambiguous, Posted};
  }

  /** Nothing but the operator takes an unresolved dispatch back to the queue: a task that
      may already have a message is posted again only by a repost. */
  lemma OnlyOperatorReposts(max: nat, s: Office, act: Act, s': Office, task: string)
    requires OfficeInv(max, s) && ActOk(max, s, act, s') && task in s.rows
    requires s.rows[task].phase != Queued && task in s'.rows && s'.rows[task].phase == Queued
    ensures act == Repost(task) || (act.Answer? && s.attempt.Some? && s.attempt.value.task == task)
    ensures act.Answer? ==> forall d :: Total(s', task, d) <= Reposts(s', task)
  {
    hide Turned;
    if act.Collect? { TurnedFacts(act.responder, act.task, s.rows[act.task], RootOf(act.responder, act.task, s.rows[act.task], act.roots), act.scanned, act.answers); }
    ActKeepsInv(max, s, act, s');
    TotalFacts(max, s', task);
    forall d | act.Answer? ensures Total(s', task, d) <= Reposts(s', task) {
      if Total(s', task, d) > 0 {
        assert Post(task, d) in s'.flight + s'.made;
        assert Post(task, d) in s'.flight || Post(task, d) in s'.made;
      }
    }
  }

  /** Seen from the channel, everything the Teams side does is one allowed row change. */
  lemma OfficeIsDispatch(max: nat, s: Office, act: Act, s': Office)
    requires OfficeInv(max, s) && ActOk(max, s, act, s') && !act.Channel?
    ensures s'.rows == s.rows || exists t :: OneRow(s.rows, t, s'.rows)
  {
    hide OfficeInv, Total, Fresh, ActiveTasks, Reposts, OneRow, TeamsChange;
    if act.Answer? {
      AnswerIsOneRow(max, s, act, s');
    } else if !(act.Emit? || act.Arrive? || act.Vanish? || act.Die?) {
      ActIsOneRow(max, s, act, s');
    }
  }

  lemma AnswerIsOneRow(max: nat, s: Office, act: Act, s': Office)
    requires OfficeInv(max, s) && ActOk(max, s, act, s') && act.Answer?
    ensures s.attempt.Some? && OneRow(s.rows, s.attempt.value.task, s'.rows)
  {
    AttemptFacts(max, s);
    hide OfficeInv, ActiveTasks;
    assert !Closed(s.rows[s.attempt.value.task].phase);
  }

  lemma ActIsOneRow(max: nat, s: Office, act: Act, s': Office)
    requires ActOk(max, s, act, s')
    requires act.Intend? || act.Reconcile? || act.Adopt? || act.Repost? || act.Abandon? || act.Collect?
    ensures OneRow(s.rows, act.task, s'.rows)
  {
    hide Total, Fresh, ActiveTasks, Reposts, Turned;
    if act.Collect? { TurnedFacts(act.responder, act.task, s.rows[act.task], RootOf(act.responder, act.task, s.rows[act.task], act.roots), act.scanned, act.answers); }
  }

  // ------------------------------------------------------------ answers and links

  /** Each answer of Teams has its phase: posted exactly with a usable message identity,
      queued or rejected exactly if nothing can have been created, ambiguous otherwise. */
  lemma {:induction false} AnswerDecides(max: nat, s: Office, act: Act, s': Office)
    requires OfficeInv(max, s) && ActOk(max, s, act, s') && act.Answer?
    ensures var t := s.attempt.value.task;
            && t in s'.rows && s'.attempt.None? && s'.rows == s.rows[t := s'.rows[t]]
            && var row, outcome := s'.rows[t], act.outcome;
               && (row.phase == Posted <==> outcome.Created?)
               && (outcome.Created? ==> row.teams.messageId == Some(outcome.id) && row.teams.postedAt == act.now)
               && (row.phase == Rejected <==> outcome.Http? && outcome.code in {400, 413, 415, 422})
               && (row.phase == Queued <==> outcome.NotSent? || (outcome.Http? && outcome.code in {401, 403, 404, 405, 409, 411, 429}))
               && (row.phase == Ambiguous <==>
                     || outcome.NoId? || outcome.Lost?
                     || (outcome.Http? && outcome.code !in {400, 401, 403, 404, 405, 409, 411, 413, 415, 422, 429}))
               && row.teams.dispatch == s.rows[t].teams.dispatch
  {
    AttemptFacts(max, s);
    hide OfficeInv, ActiveTasks;
  }

  /** The act links the task to this message at this time: a successful answer, a scan that
      found it, or the operator. */
  predicate Links(s: Office, act: Act, task: string, id: nat, at: int) {
    || (act == Answer(Created(id), at) && s.attempt.Some? && s.attempt.value.task == task)
    || act == Reconcile(task, Some(id), at) || act == Adopt(task, id, at)
  }

  /** The task keeps its message and its time, or is linked by the act. */
  predicate KeepsLink(s: Office, act: Act, s': Office, task: string) {
    task in s'.rows && s'.rows[task].teams.messageId.Some? ==>
      var teams := s'.rows[task].teams;
      || (task in s.rows && s.rows[task].teams.messageId == teams.messageId && s.rows[task].teams.postedAt == teams.postedAt)
      || Links(s, act, task, teams.messageId.value, teams.postedAt)
  }

  lemma {:induction false} StepLinks(max: nat, s: Office, act: Act, s': Office, task: string)
    requires ActOk(max, s, act, s')
    ensures KeepsLink(s, act, s', task)
  {
    hide ActOk, KeepsLink;
    match act
    case Channel(_) => ChannelLinks(max, s, act, s', task);
    case Collect(_, _, _, _, _) => CollectLinks(max, s, act, s', task);
    case Answer(_, _) => AnswerLinks(max, s, act, s', task);
    case _ => OtherLinks(max, s, act, s', task);
  }

  lemma ChannelLinks(max: nat, s: Office, act: Act, s': Office, task: string)
    requires ActOk(max, s, act, s') && act.Channel?
    ensures KeepsLink(s, act, s', task)
  {
  }

  lemma CollectLinks(max: nat, s: Office, act: Act, s': Office, task: string)
    requires ActOk(max, s, act, s') && act.Collect?
    ensures KeepsLink(s, act, s', task)
  {
    hide Turned, RootOf;
    TurnedFacts(act.responder, act.task, s.rows[act.task], RootOf(act.responder, act.task, s.rows[act.task], act.roots), act.scanned, act.answers);
  }

  lemma AnswerLinks(max: nat, s: Office, act: Act, s': Office, task: string)
    requires ActOk(max, s, act, s') && act.Answer?
    ensures KeepsLink(s, act, s', task)
  {
  }

  lemma OtherLinks(max: nat, s: Office, act: Act, s': Office, task: string)
    requires ActOk(max, s, act, s') && !act.Channel? && !act.Collect? && !act.Answer?
    ensures KeepsLink(s, act, s', task)
  {
    hide ActiveTasks, Reposts, Fresh;
  }

  /** The message of a task, and the time from which its result is overdue, are those of an
      act that linked it, in every history. */
  lemma {:induction false} LinkedByAct(max: nat, run: seq<Office>, acts: seq<Act>, task: string)
    requires IsHistory(max, run, acts) && task in run[|acts|].rows && run[|acts|].rows[task].teams.messageId.Some?
    ensures var teams := run[|acts|].rows[task].teams;
            exists k {:trigger acts[k]} :: 0 <= k < |acts| && Links(run[k], acts[k], task, teams.messageId.value, teams.postedAt)
    decreases |acts|
  {
    hide ActOk, Links;
    if acts != [] {
      var n := |acts| - 1;
      assert ActOk(max, run[n], acts[n], run[n + 1]);
      StepLinks(max, run[n], acts[n], run[n + 1], task);
      var teams := run[n + 1].rows[task].teams;
      if !Links(run[n], acts[n], task, teams.messageId.value, teams.postedAt) {
        HistoryPrefix(max, run, acts, n);
        LinkedByAct(max, run[..n + 1], acts[..n], task);
        var k :| 0 <= k < n && Links(run[..n + 1][k], acts[..n][k], task, teams.messageId.value, teams.postedAt);
        assert Links(run[k], acts[k], task, teams.messageId.value, teams.postedAt);
      }
    }
  }
}

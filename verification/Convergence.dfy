/** Reporting converges: with a fixed wanted status and no cancellation, the bridge
    sends at most two more statuses of a task and then shows the wanted one. */
module Convergence {
  import opened Wrappers
  import opened Wire
  import opened Channel
  import opened Ledger
  import opened Outbox
  import opened Rows
  import opened System
  import opened Legality

  /** The statuses a row can want. */
  predicate Reportable(wanted: Status) {
    wanted in {Running, Blocked, Completed, Failed}
  }

  /** How many statuses are still to be sent. */
  function Distance(current: Status, wanted: Status): nat {
    if current == wanted then 0 else if wanted in Transitions(current) then 1 else 2
  }

  /** The planner never stops short: it has a next status exactly while the wanted one is
      not shown, and each next status is one closer. */
  lemma NextIsCloser(current: Status, wanted: Status)
    requires Reportable(wanted) && (!Terminal(current) || current == wanted)
    ensures NextStatus(current, wanted).None? <==> current == wanted
    ensures NextStatus(current, wanted).Some? ==>
              && NextStatus(current, wanted).value in Transitions(current)
              && NextStatus(current, wanted).value != Cancelled
              && Distance(NextStatus(current, wanted).value, wanted) + 1 == Distance(current, wanted)
              && (!Terminal(NextStatus(current, wanted).value) || NextStatus(current, wanted).value == wanted)
  {
  }

  /** Statuses of the task that were ever sent. */
  function SentFor(sent: seq<Sent>, task: string): nat {
    if sent == [] then 0
    else
      var item := sent[|sent| - 1];
      SentFor(sent[..|sent| - 1], task) + (if IsReport(item.message) && Rep(item.message).task == task then 1 else 0)
  }

  lemma SentForAppend(sent: seq<Sent>, item: Sent, task: string)
    ensures SentFor(sent + [item], task) ==
              SentFor(sent, task) + (if IsReport(item.message) && Rep(item.message).task == task then 1 else 0)
  {
    hide Decode;
    assert (sent + [item])[..|sent|] == sent;
  }

  /** A status of the row was sent and has not come back. */
  predicate InTransit(sent: seq<Sent>, row: Row) {
    !row.pending.Idle? && HasKey(sent, row.pending.key)
  }

  /** The row is on its way to the wanted status and what it has pending is the next step. */
  predicate Toward(row: Row, wanted: Status) {
    && (!Terminal(row.fsStatus) || row.fsStatus == wanted)
    && (!row.pending.Idle? ==>
          IsReport(row.pending.body) && NextStatus(row.fsStatus, wanted) == Some(Rep(row.pending.body).status))
  }

  /** Sent so far, plus still to send, less what is on its way: it never changes. */
  function Score(w: World, task: string, wanted: Status): int
    requires task in w.rows
  {
    SentFor(w.mail.desk.sent, task) + Distance(w.rows[task].fsStatus, wanted)
      - (if InTransit(w.mail.desk.sent, w.rows[task]) then 1 else 0)
  }

  /** A step that plans for the task only what leads to the wanted status. */
  ghost predicate Steers(w: World, action: Action, task: string, wanted: Status) {
    action.Plan? && action.task == task && task in w.rows ==>
      NextStatus(w.rows[task].fsStatus, wanted) == Some(action.status)
  }

  lemma SendKeepsScore(config: Config, agent: Agent, w: World, w': World, task: string, wanted: Status)
    requires GoodAgent(config, agent) && SystemInv(config, agent, w) && Moves(config, agent, w, System.Send, w')
    requires task in w.rows && Toward(w.rows[task], wanted)
    ensures task in w'.rows && Toward(w'.rows[task], wanted) && Score(w', task, wanted) == Score(w, task, wanted)
  {
    hide Decode, RowsOk, MailInv, EventsOk, KeyOf, Request;
    var p := w.rows[w.pc.task].pending;
    var sent := w.mail.desk.sent;
    var item := Sent(p.key, p.body);
    RowFacts(config, agent, w, w.pc.task);
    RowFacts(config, agent, w, task);
    SentForAppend(sent, item, task);
    assert w'.mail.desk.sent == sent + [item];
    KeyAdded(sent, item);
    if w.pc.task != task && !w.rows[task].pending.Idle? {
      var q := w.rows[task].pending;
      assert HasKey(w'.mail.desk.sent, q.key) <==> HasKey(sent, q.key);
    }
  }

  lemma KeyAdded(sent: seq<Sent>, item: Sent)
    ensures forall key :: HasKey(sent + [item], key) <==> HasKey(sent, key) || key == item.key
  {
    forall key ensures HasKey(sent + [item], key) <==> HasKey(sent, key) || key == item.key {
      assert (sent + [item])[|sent|] == item;
      if HasKey(sent, key) {
        var i :| 0 <= i < |sent| && sent[i].key == key;
        assert (sent + [item])[i].key == key;
      }
    }
  }

  lemma IngestKeepsScore(config: Config, agent: Agent, w: World, w': World, task: string, wanted: Status)
    requires GoodAgent(config, agent) && SystemInv(config, agent, w) && Moves(config, agent, w, Ingest, w')
    requires task in w.rows && Toward(w.rows[task], wanted) && Reportable(wanted)
    requires task in w'.rows ==> w'.rows[task].fsStatus != Cancelled
    ensures task in w'.rows && Toward(w'.rows[task], wanted) && Score(w', task, wanted) == Score(w, task, wanted)
  {
    hide Decode, RowsOk, MailInv, EventsOk, KeyOf, Deliver, Fold, Mirrors, SentFor, Lawful, NextStatus, Distance, Transitions;
    var e := w.mail.log.events[w.cursor];
    CursorFacts(config, agent, w);
    if e.author == agent.me {
      DeliverMine(config, agent, w, task);
      RowFacts(config, agent, w, task);
      var item := w.mail.desk.sent[Seen(agent, w)];
      SentFacts(config, agent, w, Seen(agent, w));
      NextIsCloser(w.rows[task].fsStatus, wanted);
      if Rep(item.message).task == task {
        UpRow(config, agent, w, task);
        assert HasKey(w.mail.desk.sent, item.key);
      }
    } else {
      InRows(config, agent, w, task);
      DeliverOthers(config, agent, Fold(w.mail.log.events[..w.cursor]), w.rows, e, task);
    }
  }

  lemma UpRow(config: Config, agent: Agent, w: World, task: string)
    requires SystemInv(config, agent, w) && w.pc == Up && task in w.rows
    ensures !w.rows[task].pending.Intent?
  {
    hide MailInv, EventsOk, Mirrors, SentOk, PendingOk;
  }

  lemma InRows(config: Config, agent: Agent, w: World, task: string)
    requires SystemInv(config, agent, w) && w.cursor < |w.mail.log.events| && task in w.rows
    ensures Mirrors(agent, Fold(w.mail.log.events[..w.cursor]), w.rows)
    ensures task in Deliver(config, agent, w.rows, w.mail.log.events[w.cursor])
  {
    hide MailInv, EventsOk, Mirrors, SentOk, PendingOk, PcOk, Decode;
  }

  lemma ScoreStays(config: Config, agent: Agent, w: World, action: Action, w': World, task: string, wanted: Status)
    requires GoodAgent(config, agent) && SystemInv(config, agent, w) && Moves(config, agent, w, action, w')
    requires task in w.rows && Toward(w.rows[task], wanted) && Reportable(wanted)
    requires Steers(w, action, task, wanted)
    requires task in w'.rows ==> w'.rows[task].fsStatus != Cancelled
    ensures task in w'.rows && Toward(w'.rows[task], wanted) && Score(w', task, wanted) == Score(w, task, wanted)
  {
    hide Decode, RowsOk, MailInv, EventsOk, KeyOf, Deliver, Fold, SentFor, NextStatus, Distance, Transitions;
    match action
    case Send => SendKeepsScore(config, agent, w, w', task, wanted);
    case Ingest => IngestKeepsScore(config, agent, w, w', task, wanted);
    case Recover(t) => RecoverKeepsScore(config, agent, w, t, w', task, wanted);
    case Plan(t, status, text) => PlanKeepsScore(config, agent, w, t, status, text, w', task, wanted);
    case Transport(step) => TransportKeepsSent(config, agent, w, step, w');
    case _ =>
  }

  lemma TransportKeepsSent(config: Config, agent: Agent, w: World, step: MailStep, w': World)
    requires Moves(config, agent, w, Transport(step), w')
    ensures w'.mail.desk.sent == w.mail.desk.sent
  {
    hide Accepts;
  }

  lemma RecoverKeepsScore(config: Config, agent: Agent, w: World, t: string, w': World, task: string, wanted: Status)
    requires SystemInv(config, agent, w) && Moves(config, agent, w, Recover(t), w')
    requires task in w.rows && Toward(w.rows[task], wanted)
    ensures task in w'.rows && Toward(w'.rows[task], wanted) && Score(w', task, wanted) == Score(w, task, wanted)
  {
    hide Decode, RowsOk, MailInv, EventsOk, HasKey;
  }

  lemma PlanKeepsScore(config: Config, agent: Agent, w: World, t: string, status: Status, text: string, w': World, task: string, wanted: Status)
    requires SystemInv(config, agent, w) && Moves(config, agent, w, Plan(t, status, text), w')
    requires task in w.rows && Toward(w.rows[task], wanted)
    requires Steers(w, Plan(t, status, text), task, wanted)
    ensures task in w'.rows && Toward(w'.rows[task], wanted) && Score(w', task, wanted) == Score(w, task, wanted)
  {
    hide Decode, RowsOk, MailInv, EventsOk, HasKey, KeyOf, StatusMessage, IsText, SentFor, NextStatus, Distance, Transitions;
    if t == task {
      RowFacts(config, agent, w, task);
      var row := w.rows[task];
      var body := StatusMessage(task, row.revision, status, text);
      StatusMessageDecodes(task, row.revision, status, text);
      NewKey(config, agent, w, task, Sent(KeyOf(task, status, row.revision, body), body));
    }
  }

  /** A stretch of a run in which the task is steered to `wanted` and not cancelled. */
  ghost predicate SteeredRun(config: Config, agent: Agent, run: seq<World>, i: nat, j: nat, task: string, wanted: Status)
    requires i <= j < |run|
  {
    forall m {:trigger run[m]} :: i <= m < j ==> SteeredStep(config, agent, run[m], run[m + 1], task, wanted)
  }

  ghost predicate SteeredStep(config: Config, agent: Agent, w: World, w': World, task: string, wanted: Status) {
    && (task in w'.rows ==> w'.rows[task].fsStatus != Cancelled)
    && exists action: Action :: Moves(config, agent, w, action, w') && Steers(w, action, task, wanted)
  }

  lemma {:induction false} SteeredScore(config: Config, agent: Agent, run: seq<World>, i: nat, j: nat, task: string, wanted: Status)
    requires GoodAgent(config, agent) && IsRun(config, agent, run) && i <= j < |run|
    requires Reportable(wanted) && SteeredRun(config, agent, run, i, j, task, wanted)
    requires task in run[i].rows && Toward(run[i].rows[task], wanted)
    ensures task in run[j].rows && Toward(run[j].rows[task], wanted)
    ensures Score(run[j], task, wanted) == Score(run[i], task, wanted)
    decreases j
  {
    hide SystemInv, Moves, Score, Toward, Steers;
    if i < j {
      SteeredScore(config, agent, run, i, j - 1, task, wanted);
      SystemRunInv(config, agent, run, j - 1);
      assert SteeredStep(config, agent, run[j - 1], run[j - 1 + 1], task, wanted);
      var action: Action :| Moves(config, agent, run[j - 1], action, run[j]) && Steers(run[j - 1], action, task, wanted);
      ScoreStays(config, agent, run[j - 1], action, run[j], task, wanted);
    }
  }

  /** From a row on its way, with or without a status pending, to one that shows the wanted
      status with nothing pending, exactly the missing statuses are sent: the distance,
      less one that was already on its way. */
  lemma SendsExactly(config: Config, agent: Agent, run: seq<World>, i: nat, j: nat, task: string, wanted: Status)
    requires GoodAgent(config, agent) && IsRun(config, agent, run) && i <= j < |run|
    requires Reportable(wanted) && SteeredRun(config, agent, run, i, j, task, wanted)
    requires task in run[i].rows && Toward(run[i].rows[task], wanted)
    ensures task in run[j].rows
    ensures run[j].rows[task].pending == Idle ==>
              && SentFor(run[j].mail.desk.sent, task) + Distance(run[j].rows[task].fsStatus, wanted)
                 == SentFor(run[i].mail.desk.sent, task) + Distance(run[i].rows[task].fsStatus, wanted)
                    - (if InTransit(run[i].mail.desk.sent, run[i].rows[task]) then 1 else 0)
              && (NextStatus(run[j].rows[task].fsStatus, wanted).None? <==> run[j].rows[task].fsStatus == wanted)
  {
    hide IsRun, SentFor, Moves, SteeredRun, HasKey;
    SteeredScore(config, agent, run, i, j, task, wanted);
    NextIsCloser(run[j].rows[task].fsStatus, wanted);
  }

  /** The status a row has pending; without one, the status it shows. */
  function Pledged(row: Row): Status {
    if !row.pending.Idle? && IsReport(row.pending.body) then Rep(row.pending.body).status else row.fsStatus
  }

  /** Whatever a row has pending, it is on its way to that. */
  lemma TowardPledged(config: Config, agent: Agent, w: World, task: string)
    requires SystemInv(config, agent, w) && task in w.rows && !Terminal(w.rows[task].fsStatus) && !w.rows[task].pending.Idle?
    ensures Toward(w.rows[task], Pledged(w.rows[task])) && Reportable(Pledged(w.rows[task]))
    ensures Distance(w.rows[task].fsStatus, Pledged(w.rows[task])) == 1
  {
    hide Decode, SystemInv, PcOk, Seen, KeyOf, HasKey;
    RowFacts(config, agent, w, task);
  }

  /** While the first pending status is out, nothing else is planned; it is sent at most
      once more, and then the row shows it or, if it was dropped, what it showed before. */
  lemma PendingSettles(config: Config, agent: Agent, run: seq<World>, i: nat, j: nat, task: string, wanted: Status) returns (k: nat)
    requires GoodAgent(config, agent) && IsRun(config, agent, run) && i <= j < |run|
    requires SteeredRun(config, agent, run, i, j, task, wanted)
    requires task in run[i].rows && !Terminal(run[i].rows[task].fsStatus) && !run[i].rows[task].pending.Idle?
    ensures i <= k <= j && task in run[k].rows && (run[k].rows[task].pending == Idle || k == j)
    ensures Toward(run[k].rows[task], Pledged(run[i].rows[task])) && Reportable(Pledged(run[i].rows[task]))
    ensures Score(run[k], task, Pledged(run[i].rows[task])) == Score(run[i], task, Pledged(run[i].rows[task]))
    ensures Distance(run[i].rows[task].fsStatus, Pledged(run[i].rows[task])) == 1
  {
    hide SystemInv, Moves, Score, Toward, IsRun, Reportable, Distance;
    var pledged := Pledged(run[i].rows[task]);
    SystemRunInv(config, agent, run, i);
    TowardPledged(config, agent, run[i], task);
    k := i;
    while k < j && task in run[k].rows && run[k].rows[task].pending != Idle
      invariant i <= k <= j && SteeredRun(config, agent, run, i, k, task, pledged)
    {
      assert SteeredStep(config, agent, run[k], run[k + 1], task, wanted);
      var action: Action :| Moves(config, agent, run[k], action, run[k + 1]) && Steers(run[k], action, task, wanted);
      if action.Plan? && action.task == task { PlanIsIdle(config, agent, run[k], action, run[k + 1], task); }
      assert SteeredStep(config, agent, run[k], run[k + 1], task, pledged);
      k := k + 1;
    }
    SteeredScore(config, agent, run, i, k, task, pledged);
  }

  lemma PlanIsIdle(config: Config, agent: Agent, w: World, action: Action, w': World, task: string)
    requires Moves(config, agent, w, action, w') && action.Plan? && action.task == task
    ensures task in w.rows && w.rows[task].pending == Idle
  {
    hide IsText, KeyOf, StatusMessage;
  }

  /** From any row that is not terminal, whatever it has pending, steering it to a fixed
      wanted status without a cancellation sends at most two more statuses of it, beside a
      pending one that was not sent yet, over any interleaving and any crashes. Once
      nothing is pending and nothing is left to plan, the broker's table at the cursor
      shows the wanted status, or the terminal one that was already pending. */
  lemma ReportsConverge(config: Config, agent: Agent, run: seq<World>, i: nat, j: nat, task: string, wanted: Status)
    requires GoodAgent(config, agent) && IsRun(config, agent, run) && i <= j < |run|
    requires Reportable(wanted) && SteeredRun(config, agent, run, i, j, task, wanted)
    requires task in run[i].rows && !Terminal(run[i].rows[task].fsStatus)
    ensures var row := run[i].rows[task];
            SentFor(run[j].mail.desk.sent, task) <= SentFor(run[i].mail.desk.sent, task) + 2
              + (if row.pending != Idle && !InTransit(run[i].mail.desk.sent, row) then 1 else 0)
    ensures task in run[j].rows
    ensures run[j].rows[task].pending == Idle && NextStatus(run[j].rows[task].fsStatus, wanted).None? ==>
              && run[j].cursor <= |run[j].mail.log.events|
              && task in Fold(run[j].mail.log.events[..run[j].cursor]).tasks
              && var shown := Fold(run[j].mail.log.events[..run[j].cursor]).tasks[task].status;
                 shown == wanted || (Terminal(shown) && shown == Pledged(run[i].rows[task]))
  {
    hide IsRun, SentFor, Moves, Fold, HasKey, SteeredStep, IsReport, Rep;
    var k := i;
    var row := run[i].rows[task];
    if row.pending != Idle {
      k := PendingSettles(config, agent, run, i, j, task, wanted);
    }
    var settled := run[k].rows[task];
    if settled.pending == Idle && (!Terminal(settled.fsStatus) || settled.fsStatus == wanted) {
      Later(config, agent, run, i, k, j, task, wanted);
      SteeredScore(config, agent, run, k, j, task, wanted);
      NextIsCloser(run[j].rows[task].fsStatus, wanted);
    } else if settled.pending == Idle {
      Ended(config, agent, run, i, k, j, task, wanted);
    }
    RowsMirrorBroker(config, agent, run, j, task);
  }

  lemma Later(config: Config, agent: Agent, run: seq<World>, i: nat, k: nat, j: nat, task: string, wanted: Status)
    requires i <= k <= j < |run| && SteeredRun(config, agent, run, i, j, task, wanted)
    ensures SteeredRun(config, agent, run, k, j, task, wanted)
  {
  }

  /** Nothing is ever unsaid: journal, cursor and rows only grow. */
  lemma StepGrows(config: Config, agent: Agent, w: World, action: Action, w': World)
    requires SystemInv(config, agent, w) && Moves(config, agent, w, action, w')
    ensures w.mail.log.events <= w'.mail.log.events && w.cursor <= w'.cursor && w.rows.Keys <= w'.rows.Keys
  {
    hide Decode, RowsOk, EventsOk, MailInv, KeyOf, StatusMessage, IsText, DeskNext, TeamsChange;
    if action.Transport? {
      assert MailInv(config, agent.me, w.mail);
      MailKeepsInv(config, agent.me, w.mail, action.step, w'.mail);
    }
  }

  lemma {:induction false} RunGrows(config: Config, agent: Agent, run: seq<World>, i: nat, j: nat)
    requires GoodAgent(config, agent) && IsRun(config, agent, run) && i <= j < |run|
    ensures run[i].mail.log.events <= run[j].mail.log.events && run[i].cursor <= run[j].cursor && run[i].rows.Keys <= run[j].rows.Keys
    decreases |run|
  {
    hide Moves, SystemInv;
    if j < |run| - 1 {
      RunGrows(config, agent, run[..|run| - 1], i, j);
    } else if i < j {
      RunGrows(config, agent, run[..|run| - 1], i, j - 1);
      SystemRunInv(config, agent, run, j - 1);
      var action: Action :| Moves(config, agent, run[j - 1], action, run[j]);
      StepGrows(config, agent, run[j - 1], action, run[j]);
    }
  }

  /** A row that shows a terminal status shows it for good. */
  lemma TerminalStays(config: Config, agent: Agent, run: seq<World>, k: nat, m: nat, task: string)
    requires GoodAgent(config, agent) && IsRun(config, agent, run) && k <= m < |run|
    requires task in run[k].rows && Terminal(run[k].rows[task].fsStatus)
    ensures task in run[m].rows && run[m].rows[task].fsStatus == run[k].rows[task].fsStatus
  {
    hide Decode, IsRun, Fold, RowsOk, EventsOk, DeskInv;
    RunGrows(config, agent, run, k, m);
    RowsMirrorBroker(config, agent, run, k, task);
    RowsMirrorBroker(config, agent, run, m, task);
    SystemRunInv(config, agent, run, m);
    var events := run[m].mail.log.events;
    assert run[k].mail.log.events[..run[k].cursor] == events[..run[k].cursor];
    TaskEvolution(config, events, run[k].cursor, run[m].cursor, task);
  }

  lemma NoPlanAtEnd(config: Config, agent: Agent, w: World, action: Action, w': World, task: string)
    requires Moves(config, agent, w, action, w') && task in w.rows && Terminal(w.rows[task].fsStatus)
    ensures !(action.Plan? && action.task == task)
  {
    hide IsText, KeyOf, StatusMessage;
  }

  /** A row that ended with nothing pending sends nothing more. */
  lemma Ended(config: Config, agent: Agent, run: seq<World>, i: nat, k: nat, j: nat, task: string, wanted: Status)
    requires GoodAgent(config, agent) && IsRun(config, agent, run) && i <= k <= j < |run|
    requires SteeredRun(config, agent, run, i, j, task, wanted)
    requires task in run[k].rows && Terminal(run[k].rows[task].fsStatus) && run[k].rows[task].pending == Idle
    requires run[k].rows[task].fsStatus != Cancelled
    ensures task in run[j].rows && run[j].rows[task].fsStatus == run[k].rows[task].fsStatus
    ensures SentFor(run[j].mail.desk.sent, task) == SentFor(run[k].mail.desk.sent, task)
  {
    hide IsRun, SentFor, Moves, Fold, HasKey, Transitions;
    var ended := run[k].rows[task].fsStatus;
    forall m {:trigger run[m]} | k <= m < j ensures SteeredStep(config, agent, run[m], run[m + 1], task, ended) {
      assert SteeredStep(config, agent, run[m], run[m + 1], task, wanted);
      var action: Action :| Moves(config, agent, run[m], action, run[m + 1]) && Steers(run[m], action, task, wanted);
      TerminalStays(config, agent, run, k, m, task);
      NoPlanAtEnd(config, agent, run[m], action, run[m + 1], task);
    }
    SteeredScore(config, agent, run, k, j, task, ended);
    TerminalStays(config, agent, run, k, j, task);
  }
}

/** Every status the bridge sends is legal for the broker, unless a coordinator's
    cancellation of that task was sequenced first; the bridge never gets stuck. */
module Legality {
  import opened Wrappers
  import opened Wire
  import opened Channel
  import opened Ledger
  import opened Outbox
  import opened Rows
  import opened System

  // ------------------------------------------------------------ invariant

  /** How many of the bridge's own slots it has seen come back in the feed. */
  function Seen(agent: Agent, w: World): nat
    requires w.cursor <= |w.mail.log.events|
  {
    Own(w.mail.log.events[..w.cursor], agent.me)
  }

  predicate IsReport(m: Json) {
    Decode(m).Some? && Decode(m).value.Report?
  }

  function Rep(m: Json): Command
    requires IsReport(m)
  {
    Decode(m).value
  }

  /** A status message under its own key. */
  predicate GoodItem(item: Sent) {
    && IsReport(item.message)
    && Rep(item.message).status != Cancelled
    && Rep(item.message).revision >= 1
    && item.key == KeyOf(Rep(item.message).task, Rep(item.message).status, Rep(item.message).revision, item.message)
  }

  /** The row shows the task as the broker's tables had it at the cursor. */
  ghost predicate Mirrors(agent: Agent, tables: Tables, rows: map<string, Row>) {
    && (forall t {:trigger t in rows} {:trigger t in tables.tasks} ::
          t in rows <==> t in tables.tasks && tables.tasks[t].assignee == agent.me)
    && (forall t :: t in rows ==>
          rows[t].fsStatus == tables.tasks[t].status && rows[t].revision == tables.tasks[t].revision)
  }

  /** The report would be legal at this row, or the row is cancelled at a later revision. */
  predicate Fits(row: Row, report: Command)
    requires report.Report?
  {
    || (report.revision == row.revision && report.status in Transitions(row.fsStatus))
    || (row.fsStatus == Cancelled && report.revision < row.revision)
  }

  /** A pending status is a good report on its own task; once recorded, its slot has not
      come back yet. */
  ghost predicate PendingOk(sent: seq<Sent>, seen: nat, t: string, row: Row) {
    match row.pending
    case Idle => true
    case Intent(key, body) =>
      && GoodItem(Sent(key, body)) && Rep(body).task == t
      && Rep(body).revision == row.revision && Rep(body).status in Transitions(row.fsStatus)
    case InFlight(key, body, slot) =>
      && GoodItem(Sent(key, body)) && Rep(body).task == t
      && seen < slot <= |sent| && sent[slot - 1] == Sent(key, body)
      && Fits(row, Rep(body))
  }

  /** A sent status belongs to a row; if it came back the row has moved past it, and if
      not it is that row's pending status. */
  ghost predicate SentOk(rows: map<string, Row>, seen: nat, slot: nat, item: Sent) {
    && GoodItem(item)
    && Rep(item.message).task in rows
    && var row := rows[Rep(item.message).task];
       && (slot <= seen ==> Rep(item.message).revision < row.revision)
       && (slot > seen ==> row.pending in {Intent(item.key, item.message), InFlight(item.key, item.message, slot)})
  }

  /** Event i of the bridge was accepted, or its task was cancelled before it. */
  ghost predicate EventOk(config: Config, sent: seq<Sent>, events: seq<Event>, i: nat)
    requires i < |events|
  {
    var e := events[i];
    && 1 <= e.authorSeq <= |sent|
    && IsReport(sent[e.authorSeq - 1].message)
    && var report := Rep(sent[e.authorSeq - 1].message);
       && report.task in Fold(events[..i]).tasks
       && var task := Fold(events[..i]).tasks[report.task];
          e.Accepted() || (task.status == Cancelled && report.revision < task.revision)
  }

  /** The bridge is not stuck on the task, and a task that ended has left its queues. */
  predicate PhaseOk(row: Row) {
    row.phase != Stuck && (Terminal(row.fsStatus) ==> row.phase in {Done, Withdrawn})
  }

  ghost predicate PcOk(agent: Agent, w: World, seen: nat) {
    match w.pc
    case Down => true
    case Up => forall t :: t in w.rows ==> !w.rows[t].pending.Intent?
    case Sending(task) =>
      && (forall t :: t in w.rows && t != task ==> !w.rows[t].pending.Intent?)
      && task in w.rows && w.rows[task].pending.Intent? && !HasKey(w.mail.desk.sent, w.rows[task].pending.key)
    case Recording(task, slot) =>
      && (forall t :: t in w.rows && t != task ==> !w.rows[t].pending.Intent?)
      && task in w.rows && w.rows[task].pending.Intent?
      && seen < slot <= |w.mail.desk.sent|
      && w.mail.desk.sent[slot - 1] == Sent(w.rows[task].pending.key, w.rows[task].pending.body)
  }

  ghost predicate RowsOk(config: Config, agent: Agent, w: World)
    requires w.cursor <= |w.mail.log.events|
  {
    var seen := Seen(agent, w);
    && Mirrors(agent, Fold(w.mail.log.events[..w.cursor]), w.rows)
    && (forall t :: t in w.rows ==> IsName(t) && w.rows[t].revision >= 1 && PhaseOk(w.rows[t]))
    && (forall t :: t in w.rows ==> PendingOk(w.mail.desk.sent, seen, t, w.rows[t]))
    && (forall i {:trigger w.mail.desk.sent[i]} :: 0 <= i < |w.mail.desk.sent| ==>
          SentOk(w.rows, seen, i + 1, w.mail.desk.sent[i]))
    && PcOk(agent, w, seen)
  }

  ghost predicate EventsOk(config: Config, agent: Agent, mail: Mail) {
    forall i {:trigger mail.log.events[i]} :: 0 <= i < |mail.log.events| && mail.log.events[i].author == agent.me ==>
      EventOk(config, mail.desk.sent, mail.log.events, i)
  }

  ghost predicate SystemInv(config: Config, agent: Agent, w: World) {
    && MailInv(config, agent.me, w.mail)
    && w.cursor <= |w.mail.log.events|
    && RowsOk(config, agent, w)
    && EventsOk(config, agent, w.mail)
  }

  // ------------------------------------------------------------ small facts

  lemma StartInv(config: Config, agent: Agent, w: World)
    requires Start(w)
    ensures SystemInv(config, agent, w)
  {
    EmptyMailInv(config, agent.me);
    assert w.mail.log.events[..0] == [];
  }

  /** A key determines its message. */
  lemma KeyDetermines(a: Sent, b: Sent)
    requires GoodItem(a) && GoodItem(b) && a.key == b.key
    ensures a == b
  {
    hide Decode;
  }

  lemma SeenBound(config: Config, agent: Agent, w: World)
    requires SystemInv(config, agent, w)
    ensures Seen(agent, w) <= Slot(w.mail.log, agent.me) <= |w.mail.desk.sent|
  {
    hide Decode, RowsOk, EventsOk, DeskInv, History, Carries;
    var events := w.mail.log.events;
    OwnMonotone(events, w.cursor, |events|, agent.me);
    assert events[..|events|] == events;
  }

  /** Unless the bridge itself touches a task of its own, only cancellations can. */
  lemma {:induction false} SuffixOnlyCancels(config: Config, agent: Agent, events: seq<Event>, c: nat, j: nat, t: string)
    requires History(config, events) && c <= j <= |events|
    requires t in Fold(events[..c]).tasks && Fold(events[..c]).tasks[t].assignee == agent.me
    requires forall k {:trigger events[k]} :: c <= k < j && events[k].author == agent.me ==> !Touches(events[k], t)
    ensures t in Fold(events[..j]).tasks && Fold(events[..j]).tasks[t].assignee == agent.me
    ensures || Fold(events[..j]).tasks[t] == Fold(events[..c]).tasks[t]
            || (Fold(events[..j]).tasks[t].status == Cancelled && Fold(events[..c]).tasks[t].revision < Fold(events[..j]).tasks[t].revision)
    decreases j
  {
    hide Decode, History, Fold;
    if c < j {
      SuffixOnlyCancels(config, agent, events, c, j - 1, t);
      RevisionBound(config, events, c, t);
      if events[j - 1].author == agent.me {
        UntouchedStays(config, events, j - 1, t);
      } else {
        OnlyAssigneeOrCancel(config, events, j - 1, t);
      }
    }
  }

  lemma UntouchedStays(config: Config, events: seq<Event>, i: nat, t: string)
    requires History(config, events) && i < |events| && t in Fold(events[..i]).tasks && !Touches(events[i], t)
    ensures t in Fold(events[..i + 1]).tasks && Fold(events[..i + 1]).tasks[t] == Fold(events[..i]).tasks[t]
  {
    hide Decode, History;
    EventFacts(config, events, i);
  }

  /** Two statuses in flight never concern the same task. */
  lemma OneInFlight(config: Config, agent: Agent, w: World, a: nat, b: nat)
    requires SystemInv(config, agent, w)
    requires Seen(agent, w) <= a < b < |w.mail.desk.sent|
    ensures IsReport(w.mail.desk.sent[a].message) && IsReport(w.mail.desk.sent[b].message)
    ensures Rep(w.mail.desk.sent[a].message).task != Rep(w.mail.desk.sent[b].message).task
  {
    hide Decode, Mirrors, Fold, LogInv, EventsOk, Bodies, Covered;
    var sent := w.mail.desk.sent;
    assert SentOk(w.rows, Seen(agent, w), a + 1, sent[a]) && SentOk(w.rows, Seen(agent, w), b + 1, sent[b]);
    assert sent[a].key != sent[b].key;
  }

  // ------------------------------------------------------------ the sequencer takes a status

  /** The bridge's events after the cursor do not touch the task of its next slot. */
  lemma NextSlotUntouched(config: Config, agent: Agent, w: World, k: nat)
    requires SystemInv(config, agent, w) && w.cursor <= k < |w.mail.log.events|
    requires Slot(w.mail.log, agent.me) < |w.mail.desk.sent|
    requires w.mail.log.events[k].author == agent.me
    ensures var item := w.mail.desk.sent[Slot(w.mail.log, agent.me)];
            IsReport(item.message) && !Touches(w.mail.log.events[k], Rep(item.message).task)
  {
    hide Decode, Mirrors, Fold, RowsOk, Framed, Lawful, LastDigest, DeskInv;
    var events, sent := w.mail.log.events, w.mail.desk.sent;
    var e := events[k];
    assert Carries(config, agent.me, sent, e);
    HistoryAt(config, events, k);
    OwnMonotone(events, w.cursor, k, agent.me);
    assert events[..k + 1] == events[..k] + [e];
    OwnAppend(events[..k], e, agent.me);
    OwnMonotone(events, k + 1, |events|, agent.me);
    assert events[..|events|] == events;
    SeenBound(config, agent, w);
    OneInFlight(config, agent, w, e.authorSeq - 1, Slot(w.mail.log, agent.me));
  }

  /** The sequencer's verdict on the bridge's next slot. */
  lemma NextSlotVerdict(config: Config, agent: Agent, w: World)
    requires SystemInv(config, agent, w)
    requires Slot(w.mail.log, agent.me) < |w.mail.desk.sent|
    ensures var message := w.mail.desk.sent[Slot(w.mail.log, agent.me)].message;
            var tables := w.mail.log.tables;
            && IsReport(message)
            && Rep(message).task in tables.tasks
            && (|| Lawful(config, tables, agent.me, |w.mail.log.events| + 1, message)
                || (tables.tasks[Rep(message).task].status == Cancelled && Rep(message).revision < tables.tasks[Rep(message).task].revision))
  {
    hide Decode, Fold, History, DeskInv, EventsOk, Carries;
    var events, sent := w.mail.log.events, w.mail.desk.sent;
    var slot := Slot(w.mail.log, agent.me) + 1;
    SeenBound(config, agent, w);
    assert SentOk(w.rows, Seen(agent, w), slot, sent[slot - 1]);
    var t := Rep(sent[slot - 1].message).task;
    assert PendingOk(sent, Seen(agent, w), t, w.rows[t]);
    forall k | w.cursor <= k < |events| && events[k].author == agent.me ensures !Touches(events[k], t) {
      NextSlotUntouched(config, agent, w, k);
    }
    SuffixOnlyCancels(config, agent, events, w.cursor, |events|, t);
    TaskEvolution(config, events, w.cursor, |events|, t);
    RevisionBound(config, events, w.cursor, t);
    assert events[..|events|] == events;
  }

  // ------------------------------------------------------------ transport steps

  lemma EventOkGrows(config: Config, sent: seq<Sent>, sent': seq<Sent>, events: seq<Event>, events': seq<Event>, i: nat)
    requires i < |events| && EventOk(config, sent, events, i)
    requires sent <= sent' && events <= events'
    ensures EventOk(config, sent', events', i)
  {
    hide Decode, Fold;
    assert events'[..i] == events[..i];
  }

  lemma EventsOkGrows(config: Config, agent: Agent, mail: Mail, mail': Mail)
    requires EventsOk(config, agent, mail)
    requires mail.desk.sent <= mail'.desk.sent && mail.log.events <= mail'.log.events
    requires forall i {:trigger mail'.log.events[i]} :: |mail.log.events| <= i < |mail'.log.events| && mail'.log.events[i].author == agent.me ==>
               EventOk(config, mail'.desk.sent, mail'.log.events, i)
    ensures EventsOk(config, agent, mail')
  {
    hide EventOk;
    forall i | 0 <= i < |mail'.log.events| && mail'.log.events[i].author == agent.me
      ensures EventOk(config, mail'.desk.sent, mail'.log.events, i)
    {
      if i < |mail.log.events| {
        assert mail.log.events[i] == mail'.log.events[i];
        EventOkGrows(config, mail.desk.sent, mail'.desk.sent, mail.log.events, mail'.log.events, i);
      }
    }
  }

  lemma TransportKeepsInv(config: Config, agent: Agent, w: World, step: MailStep, w': World)
    requires SystemInv(config, agent, w) && Moves(config, agent, w, Transport(step), w')
    ensures SystemInv(config, agent, w')
  {
    hide MailInv, EventsOk, RowsOk, Accepts, LogInv, EventOk;
    MailKeepsInv(config, agent.me, w.mail, step, w'.mail);
    assert w'.mail.desk.sent == w.mail.desk.sent;
    assert w'.mail.log.events[..w.cursor] == w.mail.log.events[..w.cursor];
    SameRowsOk(config, agent, w, w');
    if step == AdmitMine {
      MineIsOk(config, agent, w, w');
    } else {
      OthersAreOk(config, agent, w, step, w');
    }
    EventsOkGrows(config, agent, w.mail, w'.mail);
  }

  lemma SameRowsOk(config: Config, agent: Agent, w: World, w': World)
    requires w.cursor <= |w.mail.log.events| && RowsOk(config, agent, w)
    requires w' == w.(mail := w'.mail) && w'.mail.desk.sent == w.mail.desk.sent
    requires w.mail.log.events <= w'.mail.log.events
    ensures RowsOk(config, agent, w')
  {
    hide PendingOk, SentOk, Mirrors, Fold, Own;
    assert w'.mail.log.events[..w.cursor] == w.mail.log.events[..w.cursor];
  }

  lemma OthersAreOk(config: Config, agent: Agent, w: World, step: MailStep, w': World)
    requires Moves(config, agent, w, Transport(step), w') && step != AdmitMine
    ensures forall i {:trigger w'.mail.log.events[i]} :: |w.mail.log.events| <= i < |w'.mail.log.events| ==> w'.mail.log.events[i].author != agent.me
  {
    hide Decode, Effect, Framed, Lawful, DeskNext;
  }

  lemma MineIsOk(config: Config, agent: Agent, w: World, w': World)
    requires SystemInv(config, agent, w) && Moves(config, agent, w, Transport(AdmitMine), w')
    ensures forall i {:trigger w'.mail.log.events[i]} :: |w.mail.log.events| <= i < |w'.mail.log.events| ==>
              EventOk(config, w'.mail.desk.sent, w'.mail.log.events, i)
  {
    hide Decode, Effect, Framed, Allowed, Fold, History, RowsOk, EventsOk, Request, Carries;
    var n := |w.mail.log.events|;
    var slot := Slot(w.mail.log, agent.me) + 1;
    var e := w'.mail.log.events[n];
    assert SlotBody(config, agent.me, w.mail.desk.sent, slot, w.mail.desk.inbox[slot]);
    RequestIsFramed(config, agent.me, slot, w.mail.desk.sent[slot - 1].message);
    NextSlotVerdict(config, agent, w);
    assert w'.mail.log.events[..n] == w.mail.log.events;
  }

  // ------------------------------------------------------------ bridge steps off the feed

  /** Changing one row, not its mirrored columns, keeps the invariant if its pending
      status still accounts for every sent status of the task that has not come back. */
  lemma ChangeRow(config: Config, agent: Agent, w: World, task: string, w': World)
    requires SystemInv(config, agent, w) && task in w.rows && task in w'.rows
    requires w' == w.(rows := w.rows[task := w'.rows[task]], pc := w'.pc)
    requires w'.rows[task].fsStatus == w.rows[task].fsStatus && w'.rows[task].revision == w.rows[task].revision
    requires PhaseOk(w'.rows[task])
    requires PendingOk(w.mail.desk.sent, Seen(agent, w), task, w'.rows[task])
    requires forall i {:trigger w.mail.desk.sent[i]} :: Seen(agent, w) <= i < |w.mail.desk.sent| ==>
               Waits(w.mail.desk.sent[i], i + 1, task, w'.rows[task])
    requires PcOk(agent, w', Seen(agent, w))
    ensures SystemInv(config, agent, w')
  {
    hide Decode, MailInv, EventsOk, Mirrors, Fold, PcOk;
    var seen, sent := Seen(agent, w), w.mail.desk.sent;
    MirrorsPending(agent, Fold(w.mail.log.events[..w.cursor]), w.rows, task, w'.rows[task]);
    forall i | 0 <= i < |sent| ensures SentOk(w'.rows, seen, i + 1, sent[i]) {
      assert SentOk(w.rows, seen, i + 1, sent[i]);
      assert i >= seen ==> Waits(sent[i], i + 1, task, w'.rows[task]);
    }
    forall t | t in w'.rows ensures PendingOk(sent, seen, t, w'.rows[t]) {
      assert PendingOk(sent, seen, t, w.rows[t]);
    }
  }

  lemma RowFacts(config: Config, agent: Agent, w: World, t: string)
    requires SystemInv(config, agent, w) && t in w.rows
    ensures PendingOk(w.mail.desk.sent, Seen(agent, w), t, w.rows[t]) && PhaseOk(w.rows[t]) && IsName(t) && w.rows[t].revision >= 1
    ensures PcOk(agent, w, Seen(agent, w))
  {
    hide MailInv, EventsOk, Mirrors, SentOk, PcOk, PendingOk;
  }

  /** A sent status of this task is the one its row waits for. */
  predicate Waits(item: Sent, slot: nat, task: string, row: Row) {
    IsReport(item.message) && Rep(item.message).task == task ==>
      row.pending in {Intent(item.key, item.message), InFlight(item.key, item.message, slot)}
  }

  lemma WaitsBefore(config: Config, agent: Agent, w: World, task: string, i: nat)
    requires SystemInv(config, agent, w) && task in w.rows && Seen(agent, w) <= i < |w.mail.desk.sent|
    ensures Waits(w.mail.desk.sent[i], i + 1, task, w.rows[task])
  {
    hide Decode, MailInv, EventsOk, Mirrors, Fold, PendingOk;
    assert SentOk(w.rows, Seen(agent, w), i + 1, w.mail.desk.sent[i]);
  }

  lemma RecoverKeepsInv(config: Config, agent: Agent, w: World, task: string, w': World)
    requires SystemInv(config, agent, w) && Moves(config, agent, w, Recover(task), w')
    ensures SystemInv(config, agent, w')
  {
    hide Decode, MailInv, EventsOk, Mirrors, Fold, KeyOf, RowsOk;
    var seen, sent := Seen(agent, w), w.mail.desk.sent;
    var p := w.rows[task].pending;
    RowFacts(config, agent, w, task);
    if HasKey(sent, p.key) {
      var slot := SlotOf(sent, p.key);
      SentFacts(config, agent, w, slot - 1);
      KeyDetermines(sent[slot - 1], Sent(p.key, p.body));
    }
    forall i | seen <= i < |sent| ensures Waits(sent[i], i + 1, task, w'.rows[task]) {
      WaitsBefore(config, agent, w, task, i);
      if sent[i].key == p.key {
        SameKeySameSlot(config, agent, w, i, p.key);
      }
    }
    ChangeRow(config, agent, w, task, w');
  }

  lemma SentFacts(config: Config, agent: Agent, w: World, i: nat)
    requires SystemInv(config, agent, w) && i < |w.mail.desk.sent|
    ensures SentOk(w.rows, Seen(agent, w), i + 1, w.mail.desk.sent[i])
  {
    hide MailInv, EventsOk, Mirrors, SentOk, PcOk, PendingOk;
  }

  lemma SameKeySameSlot(config: Config, agent: Agent, w: World, i: nat, key: Key)
    requires MailInv(config, agent.me, w.mail) && i < |w.mail.desk.sent| && w.mail.desk.sent[i].key == key
    ensures HasKey(w.mail.desk.sent, key) && SlotOf(w.mail.desk.sent, key) == i + 1
  {
    hide LogInv, Bodies, Covered, Carries;
  }

  /** A change of one row's pending status, phase or Teams columns mirrors as before. */
  lemma MirrorsPending(agent: Agent, tables: Tables, rows: map<string, Row>, task: string, row': Row)
    requires Mirrors(agent, tables, rows) && task in rows
    requires row'.fsStatus == rows[task].fsStatus && row'.revision == rows[task].revision
    ensures Mirrors(agent, tables, rows[task := row'])
  {
  }

  lemma PlanKeepsInv(config: Config, agent: Agent, w: World, task: string, status: Status, text: string, w': World)
    requires SystemInv(config, agent, w) && Moves(config, agent, w, Plan(task, status, text), w')
    ensures SystemInv(config, agent, w')
  {
    hide Decode, MailInv, EventsOk, Mirrors, Fold, KeyOf, IsText, StatusMessage, RowsOk, IsName;
    var seen, sent := Seen(agent, w), w.mail.desk.sent;
    var row := w.rows[task];
    var body := StatusMessage(task, row.revision, status, text);
    var key := KeyOf(task, status, row.revision, body);
    RowFacts(config, agent, w, task);
    StatusMessageDecodes(task, row.revision, status, text);
    NewKey(config, agent, w, task, Sent(key, body));
    forall i | seen <= i < |sent| ensures Waits(sent[i], i + 1, task, w'.rows[task]) {
      WaitsBefore(config, agent, w, task, i);
    }
    ChangeRow(config, agent, w, task, w');
  }

  /** A status at the row's revision was not sent before, if nothing is pending. */
  lemma NewKey(config: Config, agent: Agent, w: World, task: string, item: Sent)
    requires SystemInv(config, agent, w) && task in w.rows && w.rows[task].pending == Idle
    requires GoodItem(item) && Rep(item.message).task == task && Rep(item.message).revision == w.rows[task].revision
    ensures !HasKey(w.mail.desk.sent, item.key)
  {
    hide Decode, MailInv, EventsOk, Mirrors, Fold, RowsOk;
    if HasKey(w.mail.desk.sent, item.key) {
      var slot := SlotOf(w.mail.desk.sent, item.key);
      SentFacts(config, agent, w, slot - 1);
    }
  }

  lemma SendKeepsInv(config: Config, agent: Agent, w: World, w': World)
    requires SystemInv(config, agent, w) && Moves(config, agent, w, System.Send, w')
    ensures SystemInv(config, agent, w')
  {
    hide Decode, EventsOk, Mirrors, Fold, KeyOf, LogInv, DeskInv, EventOk, Carries, Request;
    var seen, sent, sent' := Seen(agent, w), w.mail.desk.sent, w'.mail.desk.sent;
    var p := w.rows[w.pc.task].pending;
    SeenBound(config, agent, w);
    MailKeepsInv(config, agent.me, w.mail, Local(Queue(Sent(p.key, p.body))), w'.mail);
    EventsOkGrows(config, agent, w.mail, w'.mail);
    assert PendingOk(sent, seen, w.pc.task, w.rows[w.pc.task]);
    forall i | 0 <= i < |sent'| ensures SentOk(w'.rows, seen, i + 1, sent'[i]) {
      assert i < |sent| ==> SentOk(w.rows, seen, i + 1, sent[i]) && sent'[i] == sent[i];
    }
    forall t | t in w'.rows ensures PendingOk(sent', seen, t, w'.rows[t]) {
      assert PendingOk(sent, seen, t, w.rows[t]);
    }
  }

  lemma KeysDiffer(config: Config, agent: Agent, w: World, i: nat, j: nat)
    requires MailInv(config, agent.me, w.mail) && i < |w.mail.desk.sent| && j < |w.mail.desk.sent|
    ensures w.mail.desk.sent[i].key == w.mail.desk.sent[j].key ==> i == j
  {
    hide LogInv, Bodies, Covered, Carries;
  }

  /** The recorded row is pending as it should be. */
  lemma RecordedPending(sent: seq<Sent>, seen: nat, t: string, row: Row, slot: nat)
    requires PendingOk(sent, seen, t, row) && row.pending.Intent? && seen < slot <= |sent|
    requires sent[slot - 1] == Sent(row.pending.key, row.pending.body)
    ensures PendingOk(sent, seen, t, row.(pending := InFlight(row.pending.key, row.pending.body, slot)))
  {
    hide GoodItem, IsReport;
  }

  lemma RecordedRow(config: Config, agent: Agent, w: World, task: string, slot: nat, w': World)
    requires SystemInv(config, agent, w) && w.pc == Recording(task, slot) && task in w.rows && w.rows[task].pending.Intent?
    requires var p := w.rows[task].pending;
             w' == w.(rows := w.rows[task := w.rows[task].(pending := InFlight(p.key, p.body, slot))], pc := Up)
    requires w.cursor <= |w.mail.log.events|
    ensures PendingOk(w.mail.desk.sent, Seen(agent, w), task, w'.rows[task]) && PhaseOk(w'.rows[task])
    ensures PcOk(agent, w', Seen(agent, w))
  {
    hide RowsOk, SystemInv, Seen, PendingOk, HasKey;
    RowFacts(config, agent, w, task);
    RecordedPending(w.mail.desk.sent, Seen(agent, w), task, w.rows[task], slot);
  }

  lemma RecordedWaits(config: Config, agent: Agent, w: World, task: string, slot: nat, w': World, i: nat)
    requires SystemInv(config, agent, w) && w.pc == Recording(task, slot) && task in w.rows && w.rows[task].pending.Intent?
    requires var p := w.rows[task].pending;
             w' == w.(rows := w.rows[task := w.rows[task].(pending := InFlight(p.key, p.body, slot))], pc := Up)
    requires w.cursor <= |w.mail.log.events| && Seen(agent, w) <= i < |w.mail.desk.sent|
    ensures Waits(w.mail.desk.sent[i], i + 1, task, w'.rows[task])
  {
    hide SystemInv, Seen, MailInv, IsReport, Rep;
    RecordingFacts(config, agent, w, task, slot);
    WaitsBefore(config, agent, w, task, i);
    KeysDiffer(config, agent, w, i, slot - 1);
  }

  lemma RecordingFacts(config: Config, agent: Agent, w: World, task: string, slot: nat)
    requires SystemInv(config, agent, w) && w.pc == Recording(task, slot) && task in w.rows && w.rows[task].pending.Intent?
    ensures MailInv(config, agent.me, w.mail) && 0 < slot <= |w.mail.desk.sent|
    ensures w.mail.desk.sent[slot - 1] == Sent(w.rows[task].pending.key, w.rows[task].pending.body)
  {
    hide MailInv, Mirrors, PendingOk, SentOk, EventsOk, PhaseOk, Seen;
  }

  lemma RecordKeepsInv(config: Config, agent: Agent, w: World, w': World)
    requires SystemInv(config, agent, w) && Moves(config, agent, w, System.Record, w')
    ensures SystemInv(config, agent, w')
  {
    assert w.cursor <= |w.mail.log.events|;
    hide SystemInv, PendingOk, PhaseOk, PcOk, Waits, Seen;
    var task, slot := w.pc.task, w.pc.slot;
    RecordedRow(config, agent, w, task, slot, w');
    forall i | Seen(agent, w) <= i < |w.mail.desk.sent| ensures Waits(w.mail.desk.sent[i], i + 1, task, w'.rows[task]) {
      RecordedWaits(config, agent, w, task, slot, w', i);
    }
    ChangeRow(config, agent, w, task, w');
  }

  lemma DispatchKeepsInv(config: Config, agent: Agent, w: World, task: string, after: Row, w': World)
    requires SystemInv(config, agent, w) && Moves(config, agent, w, Dispatch(task, after), w')
    ensures SystemInv(config, agent, w')
  {
    hide Decode, MailInv, EventsOk, Mirrors, Fold, RowsOk;
    var seen, sent := Seen(agent, w), w.mail.desk.sent;
    RowFacts(config, agent, w, task);
    forall i | seen <= i < |sent| ensures Waits(sent[i], i + 1, task, after) {
      WaitsBefore(config, agent, w, task, i);
    }
    ChangeRow(config, agent, w, task, w');
  }

  // ------------------------------------------------------------ intake

  /** The event at the cursor, as the bridge reads it. */
  lemma CursorFacts(config: Config, agent: Agent, w: World)
    requires SystemInv(config, agent, w) && w.cursor < |w.mail.log.events|
    ensures var events := w.mail.log.events; var e := events[w.cursor];
            && e.n == w.cursor + 1
            && (e.Accepted() ==> Lawful(config, Fold(events[..w.cursor]), e.author, e.n, e.message))
            && Fold(events[..w.cursor + 1]) == Ledger.Step(Fold(events[..w.cursor]), e)
            && Own(events[..w.cursor + 1], agent.me) == Seen(agent, w) + (if e.author == agent.me then 1 else 0)
            && (e.author == agent.me ==>
                  && e.authorSeq == Seen(agent, w) + 1
                  && Carries(config, agent.me, w.mail.desk.sent, e)
                  && EventOk(config, w.mail.desk.sent, events, w.cursor))
  {
    hide Decode, RowsOk, DeskInv, History, LastDigest, Framed, Allowed, Effect, Request;
    var events := w.mail.log.events;
    var e := events[w.cursor];
    EventFacts(config, events, w.cursor);
    HistoryAt(config, events, w.cursor);
    assert events[..w.cursor + 1] == events[..w.cursor] + [e];
    OwnAppend(events[..w.cursor], e, agent.me);
  }

  lemma DeliverMirrorsAt(config: Config, agent: Agent, tables: Tables, rows: map<string, Row>, e: Event, t: string)
    requires Mirrors(agent, tables, rows)
    requires e.Accepted() ==> Lawful(config, tables, e.author, e.n, e.message)
    ensures var rows', tables' := Deliver(config, agent, rows, e), Ledger.Step(tables, e);
            && (t in rows' <==> t in tables'.tasks && tables'.tasks[t].assignee == agent.me)
            && (t in rows' ==> rows'[t].fsStatus == tables'.tasks[t].status && rows'[t].revision == tables'.tasks[t].revision)
  {
    hide Decode, Settle, RevisionIn;
    SettleKeeps(rows, e);
  }

  lemma SettleKeeps(rows: map<string, Row>, e: Event)
    ensures forall t {:trigger Settle(rows[t], e)} :: t in rows ==>
              Settle(rows[t], e).fsStatus == rows[t].fsStatus && Settle(rows[t], e).revision == rows[t].revision
  {
    hide RevisionIn;
  }

  /** The rows keep mirroring the broker's tables, whatever the next event is. */
  lemma DeliverMirrors(config: Config, agent: Agent, tables: Tables, rows: map<string, Row>, e: Event)
    requires Mirrors(agent, tables, rows)
    requires e.Accepted() ==> Lawful(config, tables, e.author, e.n, e.message)
    ensures Mirrors(agent, Ledger.Step(tables, e), Deliver(config, agent, rows, e))
  {
    hide Decode, Deliver, Effect, Lawful;
    forall t {
      DeliverMirrorsAt(config, agent, tables, rows, e, t);
    }
  }

  /** Another author's event: a row is new, unchanged, or cancelled. */
  lemma DeliverOthers(config: Config, agent: Agent, tables: Tables, rows: map<string, Row>, e: Event, t: string)
    requires GoodAgent(config, agent) && Mirrors(agent, tables, rows)
    requires e.Accepted() ==> Lawful(config, tables, e.author, e.n, e.message)
    requires e.author != agent.me
    requires t in Deliver(config, agent, rows, e)
    ensures t in rows ==> Deliver(config, agent, rows, e)[t] in {rows[t], Follow(rows[t], Cancelled, e.n)}
    ensures t !in rows ==> IsName(t) && Deliver(config, agent, rows, e)[t].pending == Idle
                           && Deliver(config, agent, rows, e)[t].revision == e.n && PhaseOk(Deliver(config, agent, rows, e)[t])
  {
    TaskNamed(e.message);
  }

  lemma TaskNamed(m: Json)
    ensures Decode(m).Some? && Decode(m).value.Assign? ==> IsName(Decode(m).value.task)
    ensures IsReport(m) ==> IsName(Rep(m).task)
  {
    hide IsName, IsText;
  }

  /** The bridge's own event: only the row that waits for it changes, and it is not stuck. */
  lemma DeliverMine(config: Config, agent: Agent, w: World, t: string)
    requires GoodAgent(config, agent) && SystemInv(config, agent, w) && w.pc == Up
    requires w.cursor < |w.mail.log.events| && w.mail.log.events[w.cursor].author == agent.me
    ensures Seen(agent, w) < |w.mail.desk.sent| && IsReport(w.mail.desk.sent[Seen(agent, w)].message)
    ensures var e := w.mail.log.events[w.cursor];
            var report := Rep(w.mail.desk.sent[Seen(agent, w)].message);
            && report.task in w.rows
            && (t in Deliver(config, agent, w.rows, e) <==> t in w.rows)
            && (t in w.rows && t != report.task ==> Deliver(config, agent, w.rows, e)[t] == w.rows[t])
            && (t == report.task ==>
                  && var row := w.rows[t].(pending := Idle);
                     && Deliver(config, agent, w.rows, e)[t] == (if e.Accepted() then Follow(row, report.status, e.n) else row)
                     && (e.Accepted() || report.revision < w.rows[t].revision))
  {
    hide Decode, MailInv, Fold, EventsOk, Mirrors, Request, KeyOf;
    var seen, sent := Seen(agent, w), w.mail.desk.sent;
    var events := w.mail.log.events;
    var e := events[w.cursor];
    CursorFacts(config, agent, w);
    assert SentOk(w.rows, seen, seen + 1, sent[seen]);
    var report := Rep(sent[seen].message);
    MirrorRow(agent, Fold(events[..w.cursor]), w.rows, report.task);
    if t in w.rows {
      assert PendingOk(sent, seen, t, w.rows[t]);
    }
    assert w.rows[report.task].pending == InFlight(sent[seen].key, sent[seen].message, seen + 1);
  }

  lemma MirrorRow(agent: Agent, tables: Tables, rows: map<string, Row>, t: string)
    requires Mirrors(agent, tables, rows) && t in rows
    ensures t in tables.tasks && rows[t].fsStatus == tables.tasks[t].status && rows[t].revision == tables.tasks[t].revision
    ensures tables.tasks[t].assignee == agent.me
  {
  }

  lemma OthersPending(config: Config, agent: Agent, w: World, t: string)
    requires GoodAgent(config, agent) && SystemInv(config, agent, w) && w.pc == Up && w.cursor < |w.mail.log.events|
    requires w.mail.log.events[w.cursor].author != agent.me
    requires t in Deliver(config, agent, w.rows, w.mail.log.events[w.cursor])
    ensures var row := Deliver(config, agent, w.rows, w.mail.log.events[w.cursor])[t];
            && PendingOk(w.mail.desk.sent, Seen(agent, w), t, row)
            && !row.pending.Intent? && IsName(t) && row.revision >= 1 && PhaseOk(row)
            && (t in w.rows ==> row.pending == w.rows[t].pending && w.rows[t].revision <= row.revision)
  {
    hide Decode, MailInv, EventsOk, Fold, Deliver, Lawful, KeyOf, Mirrors;
    var e := w.mail.log.events[w.cursor];
    var tables := Fold(w.mail.log.events[..w.cursor]);
    CursorFacts(config, agent, w);
    DeliverOthers(config, agent, tables, w.rows, e, t);
    if t in w.rows {
      assert PendingOk(w.mail.desk.sent, Seen(agent, w), t, w.rows[t]);
      CursorRevision(config, agent, w, t);
    }
  }

  lemma CursorRevision(config: Config, agent: Agent, w: World, t: string)
    requires SystemInv(config, agent, w) && t in w.rows
    ensures 1 <= w.rows[t].revision <= w.cursor
  {
    hide Decode, EventsOk, Fold, SentOk, PendingOk, PcOk, DeskInv, History, Carries;
    MirrorRow(agent, Fold(w.mail.log.events[..w.cursor]), w.rows, t);
    RevisionBound(config, w.mail.log.events, w.cursor, t);
  }

  lemma MinePending(config: Config, agent: Agent, w: World, t: string)
    requires GoodAgent(config, agent) && SystemInv(config, agent, w) && w.pc == Up && w.cursor < |w.mail.log.events|
    requires w.mail.log.events[w.cursor].author == agent.me
    requires t in Deliver(config, agent, w.rows, w.mail.log.events[w.cursor])
    ensures var row := Deliver(config, agent, w.rows, w.mail.log.events[w.cursor])[t];
            && PendingOk(w.mail.desk.sent, Seen(agent, w) + 1, t, row)
            && !row.pending.Intent? && IsName(t) && row.revision >= 1 && PhaseOk(row)
            && t in w.rows && w.rows[t].revision <= row.revision
  {
    hide Decode, MailInv, EventsOk, Fold, Deliver, KeyOf, Mirrors;
    DeliverMine(config, agent, w, t);
    CursorFacts(config, agent, w);
    assert PendingOk(w.mail.desk.sent, Seen(agent, w), t, w.rows[t]);
    CursorRevision(config, agent, w, t);
  }

  lemma MineSent(config: Config, agent: Agent, w: World, i: nat)
    requires GoodAgent(config, agent) && SystemInv(config, agent, w) && w.pc == Up && w.cursor < |w.mail.log.events|
    requires w.mail.log.events[w.cursor].author == agent.me && i < |w.mail.desk.sent|
    ensures SentOk(Deliver(config, agent, w.rows, w.mail.log.events[w.cursor]), Seen(agent, w) + 1, i + 1, w.mail.desk.sent[i])
  {
    hide Decode, MailInv, EventsOk, Fold, Deliver, KeyOf, Mirrors, PendingOk;
    var seen, sent := Seen(agent, w), w.mail.desk.sent;
    SentFacts(config, agent, w, i);
    var t := Rep(sent[i].message).task;
    DeliverMine(config, agent, w, t);
    MinePending(config, agent, w, t);
    CursorRevision(config, agent, w, t);
    CursorFacts(config, agent, w);
    if i > seen { OneInFlight(config, agent, w, seen, i); }
    if i == seen {
      SentFacts(config, agent, w, seen);
      PendingRevision(config, agent, w, i);
    }
  }

  /** A status names a revision that the cursor has passed. */
  lemma PendingRevision(config: Config, agent: Agent, w: World, i: nat)
    requires SystemInv(config, agent, w) && Seen(agent, w) <= i < |w.mail.desk.sent|
    ensures IsReport(w.mail.desk.sent[i].message) && Rep(w.mail.desk.sent[i].message).revision <= w.cursor
  {
    hide Decode, MailInv, EventsOk, Fold, RowsOk, KeyOf;
    SentFacts(config, agent, w, i);
    var t := Rep(w.mail.desk.sent[i].message).task;
    RowFacts(config, agent, w, t);
    CursorRevision(config, agent, w, t);
  }

  lemma IngestKeepsInv(config: Config, agent: Agent, w: World, w': World)
    requires GoodAgent(config, agent) && SystemInv(config, agent, w) && Moves(config, agent, w, Ingest, w')
    ensures SystemInv(config, agent, w')
  {
    hide Decode, MailInv, EventsOk, Fold, Deliver, Mirrors, PendingOk, SentOk, Lawful, EventOk, IsName;
    var e := w.mail.log.events[w.cursor];
    var seen, sent := Seen(agent, w), w.mail.desk.sent;
    CursorFacts(config, agent, w);
    DeliverMirrors(config, agent, Fold(w.mail.log.events[..w.cursor]), w.rows, e);
    forall t | t in w'.rows
      ensures PendingOk(sent, Seen(agent, w'), t, w'.rows[t]) && !w'.rows[t].pending.Intent?
      ensures IsName(t) && w'.rows[t].revision >= 1 && PhaseOk(w'.rows[t])
    {
      if e.author == agent.me { MinePending(config, agent, w, t); } else { OthersPending(config, agent, w, t); }
    }
    forall i | 0 <= i < |sent| ensures SentOk(w'.rows, Seen(agent, w'), i + 1, sent[i]) {
      if e.author == agent.me { MineSent(config, agent, w, i); } else { OthersSent(config, agent, w, i); }
    }
  }

  lemma OthersSent(config: Config, agent: Agent, w: World, i: nat)
    requires GoodAgent(config, agent) && SystemInv(config, agent, w) && w.pc == Up && w.cursor < |w.mail.log.events|
    requires w.mail.log.events[w.cursor].author != agent.me && i < |w.mail.desk.sent|
    ensures SentOk(Deliver(config, agent, w.rows, w.mail.log.events[w.cursor]), Seen(agent, w), i + 1, w.mail.desk.sent[i])
  {
    hide Decode, MailInv, EventsOk, Fold, RowsOk, KeyOf, PendingOk, Lawful;
    SentFacts(config, agent, w, i);
    OthersPending(config, agent, w, Rep(w.mail.desk.sent[i].message).task);
  }

  // ------------------------------------------------------------ whole runs

  lemma MovesKeepInv(config: Config, agent: Agent, w: World, action: Action, w': World)
    requires GoodAgent(config, agent) && SystemInv(config, agent, w) && Moves(config, agent, w, action, w')
    ensures SystemInv(config, agent, w')
  {
    match action
    case Transport(step) => TransportKeepsInv(config, agent, w, step, w');
    case Show(_) => QuietKeepsInv(config, agent, w, w');
    case Crash => QuietKeepsInv(config, agent, w, w');
    case Recover(task) => RecoverKeepsInv(config, agent, w, task, w');
    case Ready => QuietKeepsInv(config, agent, w, w');
    case Ingest => IngestKeepsInv(config, agent, w, w');
    case Plan(task, status, text) => PlanKeepsInv(config, agent, w, task, status, text, w');
    case Send => SendKeepsInv(config, agent, w, w');
    case Record => RecordKeepsInv(config, agent, w, w');
    case Dispatch(task, after) => DispatchKeepsInv(config, agent, w, task, after, w');
  }

  lemma QuietKeepsInv(config: Config, agent: Agent, w: World, w': World)
    requires SystemInv(config, agent, w)
    requires w' == w.(visible := w'.visible, pc := w'.pc)
    requires w'.pc == w.pc || w'.pc == Down || (w'.pc == Up && forall t :: t in w.rows ==> !w.rows[t].pending.Intent?)
    ensures SystemInv(config, agent, w')
  {
    hide Decode, MailInv, EventsOk, Mirrors, PendingOk, SentOk, Fold;
  }

  lemma {:induction false} SystemRunInv(config: Config, agent: Agent, run: seq<World>, i: nat)
    requires GoodAgent(config, agent) && IsRun(config, agent, run) && i < |run|
    ensures SystemInv(config, agent, run[i])
    decreases |run|
  {
    hide SystemInv, Moves;
    if |run| == 1 {
      StartInv(config, agent, run[0]);
    } else {
      SystemRunInv(config, agent, run[..|run| - 1], if i < |run| - 1 then i else |run| - 2);
      if i == |run| - 1 {
        var action: Action :| Moves(config, agent, run[|run| - 2], action, run[|run| - 1]);
        MovesKeepInv(config, agent, run[|run| - 2], action, run[|run| - 1]);
      }
    }
  }

  /** A coordinator's cancellation of the task, sequenced after `revision` and before
      event i. */
  ghost predicate CancelledBefore(config: Config, events: seq<Event>, i: nat, task: string, revision: int)
    requires i <= |events|
  {
    exists j {:trigger events[j]} :: 0 <= j < i && revision < j + 1
      && events[j].Accepted() && IsCoordinator(config, events[j].author)
      && IsReport(events[j].message) && Rep(events[j].message).task == task && Rep(events[j].message).status == Cancelled
  }

  /** In every run of the group, over every interleaving, crash and power loss: each
      status of the bridge that the broker sequenced was accepted, unless a coordinator's
      cancellation of that task was sequenced first. */
  lemma EveryStatusIsLegal(config: Config, agent: Agent, run: seq<World>, i: nat, k: nat)
    requires GoodAgent(config, agent) && IsRun(config, agent, run) && i < |run|
    requires k < |run[i].mail.log.events| && run[i].mail.log.events[k].author == agent.me
    ensures var e, sent := run[i].mail.log.events[k], run[i].mail.desk.sent;
            && 1 <= e.authorSeq <= |sent| && IsReport(sent[e.authorSeq - 1].message)
            && var report := Rep(sent[e.authorSeq - 1].message);
               && (e.Accepted() ==> e.message == sent[e.authorSeq - 1].message)
               && (e.Accepted() || CancelledBefore(config, run[i].mail.log.events, k, report.task, report.revision))
  {
    hide Decode, RowsOk, DeskInv, History, Fold, IsRun, Request;
    SystemRunInv(config, agent, run, i);
    var mail := run[i].mail;
    var e := mail.log.events[k];
    assert EventOk(config, mail.desk.sent, mail.log.events, k) && Carries(config, agent.me, mail.desk.sent, e);
    if !e.Accepted() {
      var report := Rep(mail.desk.sent[e.authorSeq - 1].message);
      var j := Fold(mail.log.events[..k]).tasks[report.task].revision - 1;
      RevisionBound(config, mail.log.events, k, report.task);
      CancellerIsCoordinator(config, agent, run[i], k, report.task);
      assert mail.log.events[j].Accepted();
    }
  }

  /** A cancelled task of the bridge was cancelled by a coordinator. */
  lemma CancellerIsCoordinator(config: Config, agent: Agent, w: World, k: nat, task: string)
    requires GoodAgent(config, agent) && SystemInv(config, agent, w) && k <= |w.mail.log.events|
    requires task in Fold(w.mail.log.events[..k]).tasks && Fold(w.mail.log.events[..k]).tasks[task].status == Cancelled
    requires exists s :: 0 <= s < |w.mail.desk.sent| && IsReport(w.mail.desk.sent[s].message) && Rep(w.mail.desk.sent[s].message).task == task
    ensures var events := w.mail.log.events;
            var j := Fold(events[..k]).tasks[task].revision - 1;
            && 0 <= j < k && events[j].Accepted() && IsCoordinator(config, events[j].author)
            && IsReport(events[j].message) && Rep(events[j].message).task == task && Rep(events[j].message).status == Cancelled
  {
    hide Decode, History, Fold, DeskInv, PcOk, PendingOk, Request;
    var events := w.mail.log.events;
    var j := Fold(events[..k]).tasks[task].revision - 1;
    RevisionBound(config, events, k, task);
    LastChange(config, events, k, task);
    OwnTask(config, agent, w, k, task);
    ReportedTask(config, events, j, task);
    TaskEvolution(config, events, j, k, task);
    if events[j].author == agent.me {
      assert Carries(config, agent.me, w.mail.desk.sent, events[j]);
      SentFacts(config, agent, w, events[j].authorSeq - 1);
    }
  }

  /** A task the bridge ever reported on is assigned to the bridge. */
  lemma OwnTask(config: Config, agent: Agent, w: World, k: nat, task: string)
    requires SystemInv(config, agent, w) && k <= |w.mail.log.events|
    requires exists s :: 0 <= s < |w.mail.desk.sent| && IsReport(w.mail.desk.sent[s].message) && Rep(w.mail.desk.sent[s].message).task == task
    requires task in Fold(w.mail.log.events[..k]).tasks
    ensures Fold(w.mail.log.events[..k]).tasks[task].assignee == agent.me
  {
    hide Decode, Fold, DeskInv, History, PcOk, PendingOk, Carries, EventsOk;
    var s :| 0 <= s < |w.mail.desk.sent| && IsReport(w.mail.desk.sent[s].message) && Rep(w.mail.desk.sent[s].message).task == task;
    SentFacts(config, agent, w, s);
    MirrorRow(agent, Fold(w.mail.log.events[..w.cursor]), w.rows, task);
    if k <= w.cursor {
      TaskEvolution(config, w.mail.log.events, k, w.cursor, task);
    } else {
      TaskEvolution(config, w.mail.log.events, w.cursor, k, task);
    }
  }

  lemma ReportedTask(config: Config, events: seq<Event>, j: nat, task: string)
    requires History(config, events) && j < |events|
    requires IsReport(events[j].message) && Rep(events[j].message).task == task
    requires Lawful(config, Fold(events[..j]), events[j].author, j + 1, events[j].message)
    ensures task in Fold(events[..j]).tasks
    ensures || events[j].author == Fold(events[..j]).tasks[task].assignee
            || IsCoordinator(config, events[j].author)
  {
    hide Decode, History;
  }

  /** The event that gave a task its revision also gave it its status. */
  lemma LastChange(config: Config, events: seq<Event>, k: nat, task: string)
    requires History(config, events) && k <= |events|
    requires task in Fold(events[..k]).tasks && Fold(events[..k]).tasks[task].status == Cancelled
    ensures var j := Fold(events[..k]).tasks[task].revision - 1;
            && 0 <= j < k && Touches(events[j], task)
            && IsReport(events[j].message) && Rep(events[j].message).task == task && Rep(events[j].message).status == Cancelled
            && Lawful(config, Fold(events[..j]), events[j].author, j + 1, events[j].message)
  {
    hide Decode, History;
    HistoryPrefix(config, events, k);
    RevisionIsLastTouch(config, events[..k], task);
    LastTouchBound(events[..k], task);
    var j := LastTouch(events[..k], task) - 1;
    EventFacts(config, events, j);
    StatusSince(config, events, j + 1, k, task);
  }

  /** No touch, no change. */
  lemma {:induction false} StatusSince(config: Config, events: seq<Event>, a: nat, b: nat, task: string)
    requires History(config, events) && 1 <= a <= b <= |events|
    requires LastTouch(events[..b], task) == a
    ensures task in Fold(events[..a]).tasks <==> task in Fold(events[..b]).tasks
    ensures task in Fold(events[..a]).tasks ==> Fold(events[..a]).tasks[task] == Fold(events[..b]).tasks[task]
    decreases b
  {
    hide Decode, History;
    if a < b {
      assert events[..b][..b - 1] == events[..b - 1];
      EventFacts(config, events, b - 1);
      StatusSince(config, events, a, b - 1, task);
    }
  }

  // ------------------------------------------------------------ main results

  /** In every reachable state no task is stuck, and each row shows the status and the
      revision that the broker's tables had after the events up to the cursor. */
  lemma RowsMirrorBroker(config: Config, agent: Agent, run: seq<World>, i: nat, t: string)
    requires GoodAgent(config, agent) && IsRun(config, agent, run) && i < |run| && t in run[i].rows
    ensures run[i].cursor <= |run[i].mail.log.events|
    ensures run[i].rows[t].phase != Stuck
    ensures var tables := Fold(run[i].mail.log.events[..run[i].cursor]);
            && t in tables.tasks && tables.tasks[t].assignee == agent.me
            && run[i].rows[t].fsStatus == tables.tasks[t].status
            && run[i].rows[t].revision == tables.tasks[t].revision
  {
    hide Decode, MailInv, EventsOk, Fold, IsRun;
    SystemRunInv(config, agent, run, i);
    MirrorRow(agent, Fold(run[i].mail.log.events[..run[i].cursor]), run[i].rows, t);
  }

  /** In every reachable state at most one status per task has not come back yet. */
  lemma AtMostOneInFlight(config: Config, agent: Agent, run: seq<World>, i: nat, a: nat, b: nat)
    requires GoodAgent(config, agent) && IsRun(config, agent, run) && i < |run|
    requires a < |run[i].mail.desk.sent| && b < |run[i].mail.desk.sent|
    ensures var w := run[i]; var sent := w.mail.desk.sent;
            && IsReport(sent[a].message) && IsReport(sent[b].message)
            && w.cursor <= |w.mail.log.events|
            && (a >= Seen(agent, w) && b >= Seen(agent, w) && Rep(sent[a].message).task == Rep(sent[b].message).task ==> a == b)
  {
    hide Decode, MailInv, EventsOk, Fold, IsRun, RowsOk;
    SystemRunInv(config, agent, run, i);
    SentFacts(config, agent, run[i], a);
    SentFacts(config, agent, run[i], b);
    if Seen(agent, run[i]) <= a < b { OneInFlight(config, agent, run[i], a, b); }
    if Seen(agent, run[i]) <= b < a { OneInFlight(config, agent, run[i], b, a); }
  }

  /** A task waiting for its post was not ended by any event that the bridge has applied:
      a cancellation up to the cursor is never followed by a post. */
  lemma QueuedIsNotCancelled(config: Config, agent: Agent, run: seq<World>, i: nat, t: string, h: nat)
    requires GoodAgent(config, agent) && IsRun(config, agent, run) && i < |run|
    requires t in run[i].rows && !Closed(run[i].rows[t].phase) && h <= run[i].cursor
    ensures h <= |run[i].mail.log.events|
    ensures t in Fold(run[i].mail.log.events[..h]).tasks ==> !Terminal(Fold(run[i].mail.log.events[..h]).tasks[t].status)
  {
    hide Decode, EventsOk, Fold, IsRun, DeskInv, PendingOk, SentOk, PcOk, History;
    SystemRunInv(config, agent, run, i);
    var w := run[i];
    MirrorRow(agent, Fold(w.mail.log.events[..w.cursor]), w.rows, t);
    if t in Fold(w.mail.log.events[..h]).tasks {
      TaskEvolution(config, w.mail.log.events, h, w.cursor, t);
    }
  }
}

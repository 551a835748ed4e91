/** The bridge process: feed intake, crash recovery, reporting, and the Teams side, each
    updating the task rows in place. Two ghost traces record every durable change, one as
    a run of the whole group and one as a run of the Teams dispatch. */
module Bridge {
  import opened Wrappers
  import opened Wire
  import opened Channel
  import opened Ledger
  import opened Outbox
  import opened Rows
  import opened System
  import opened Legality
  import opened Sweep
  import Client
  import F = Fit
  import P = Posting
  import Policy

  // ------------------------------------------------------------ rows in assignment order

  /** The tasks of the table, each once, oldest assignment first. */
  ghost predicate Lists(order: seq<string>, rows: map<string, Row>) {
    && (forall t {:trigger t in rows} {:trigger t in order} :: t in order <==> t in rows)
    && (forall i, j :: 0 <= i < j < |order| ==> order[i] != order[j])
  }

  /** No two rows wait for the same slot. */
  predicate OwnSlots(rows: map<string, Row>) {
    forall t, u {:trigger rows[t], rows[u]} ::
      (t in rows && u in rows && rows[t].pending.InFlight? && rows[u].pending.InFlight?
       && rows[t].pending.slot == rows[u].pending.slot) ==> t == u
  }

  /** In every reachable state the rows wait for different slots. */
  lemma SlotsAreOwn(config: Config, agent: Agent, w: World)
    requires SystemInv(config, agent, w)
    ensures OwnSlots(w.rows)
  {
    hide Decode, MailInv, EventsOk, Mirrors, Fold, SentOk, PcOk;
    forall t, u | t in w.rows && u in w.rows && w.rows[t].pending.InFlight? && w.rows[u].pending.InFlight?
      && w.rows[t].pending.slot == w.rows[u].pending.slot ensures t == u
    {
      assert PendingOk(w.mail.desk.sent, Seen(agent, w), t, w.rows[t]);
      assert PendingOk(w.mail.desk.sent, Seen(agent, w), u, w.rows[u]);
    }
  }

  /** Removes the pending status that the bridge's own event answers. */
  method SettleOne(rows: map<string, Row>, order: seq<string>, e: Event) returns (settled: map<string, Row>)
    requires Lists(order, rows) && OwnSlots(rows)
    ensures settled == map t | t in rows :: Settle(rows[t], e)
  {
    settled := rows;
    for i := 0 to |order|
      invariant settled == rows
      invariant forall j :: 0 <= j < i ==> Settle(rows[order[j]], e) == rows[order[j]]
    {
      var row := rows[order[i]];
      if row.pending.InFlight? && row.pending.slot == e.authorSeq {
        settled := settled[order[i] := row.(pending := Idle)];
        if !e.Accepted() && RevisionIn(row.pending.body) == Some(row.revision) {
          settled := settled[order[i] := settled[order[i]].(phase := Stuck)];
        }
        assert settled == map t | t in rows :: Settle(rows[t], e);
        return;
      }
    }
  }

  lemma CommandIsObject(message: Json)
    ensures Decode(message).Some? ==> message.Obj?
  {
  }

  /** All events from one position to another, applied in order. */
  function DeliverAll(config: Config, agent: Agent, rows: map<string, Row>, events: seq<Event>): map<string, Row> {
    if events == [] then rows
    else Deliver(config, agent, DeliverAll(config, agent, rows, events[..|events| - 1]), events[|events| - 1])
  }

  lemma {:induction false} DeliverBoth(config: Config, agent: Agent, rows: map<string, Row>, a: seq<Event>, b: seq<Event>)
    ensures DeliverAll(config, agent, DeliverAll(config, agent, rows, a), b) == DeliverAll(config, agent, rows, a + b)
  {
    hide Deliver;
    if b == [] {
      assert a + b == a;
    } else {
      DeliverBoth(config, agent, rows, a, b[..|b| - 1]);
      assert (a + b)[..|a + b| - 1] == a + b[..|b| - 1];
    }
  }

  /** Applying a stretch of the journal and then the next one is applying both. */
  lemma DeliverOn(config: Config, agent: Agent, rows: map<string, Row>, journal: seq<Event>, a: nat, b: nat, c: nat)
    requires a <= b <= c <= |journal|
    ensures DeliverAll(config, agent, DeliverAll(config, agent, rows, journal[a..b]), journal[b..c])
         == DeliverAll(config, agent, rows, journal[a..c])
    ensures DeliverAll(config, agent, rows, journal[a..a]) == rows
    ensures c == b + 1 ==> Deliver(config, agent, DeliverAll(config, agent, rows, journal[a..b]), journal[b]) == DeliverAll(config, agent, rows, journal[a..c])
  {
    hide Deliver;
    DeliverBoth(config, agent, rows, journal[a..b], journal[b..c]);
    assert journal[a..b] + journal[b..c] == journal[a..c];
    if c == b + 1 {
      assert journal[a..c][..c - 1 - a] == journal[a..b];
    }
  }

  /** The status that an accepted event reports of the task. */
  function Says(e: Event, task: string): Option<Status> {
    if !e.Accepted() then None
    else match Decode(e.message) case Some(Report(t, _, status)) => (if t == task then Some(status) else None) case _ => None
  }

  /** The bridge's own event comes back under the slot that the row waits for. */
  predicate Answers(agent: Agent, e: Event, row: Row) {
    e.author == agent.me && row.pending.InFlight? && row.pending.slot == e.authorSeq
  }

  /** One event adds a row exactly if it assigns a new task to the bridge, and the task is
      queued if the policy allows its text and rejected if not. In the rows that are there
      it settles what it answers and shows what it reports; a task that ended is closed. */
  ghost predicate Changed(config: Config, agent: Agent, was: map<string, Row>, e: Event, now: map<string, Row>) {
    && (forall t :: t in now <==> t in was || Policy.AssignsTo(config, agent, e, t))
    && (forall t :: t in now && t !in was ==>
          now[t] == Row(if agent.policy(t, Policy.TextOf(e)) then Queued else Rejected, Assigned, e.n, Idle, NO_TEAMS))
    && (forall t :: t in was && t in now ==> RowChanged(agent, t, was[t], e, now[t]))
  }

  predicate RowChanged(agent: Agent, task: string, was: Row, e: Event, now: Row) {
    && now.teams == was.teams
    && now.pending == (if Answers(agent, e, was) then Idle else was.pending)
    && (if Says(e, task).Some?
        then now.fsStatus == Says(e, task).value && now.revision == e.n
        else now.fsStatus == was.fsStatus && now.revision == was.revision)
    && (match Says(e, task)
        case Some(Completed) => now.phase == Done
        case Some(Failed) => now.phase == Done
        case Some(Cancelled) => now.phase == Withdrawn
        case _ =>
          now.phase == if Answers(agent, e, was) && !e.Accepted() && RevisionIn(was.pending.body) == Some(was.revision) then Stuck else was.phase)
  }

  lemma DeliverChanges(config: Config, agent: Agent, rows: map<string, Row>, e: Event)
    ensures Changed(config, agent, rows, e, Deliver(config, agent, rows, e))
  {
    hide Decode, RevisionIn;
    Policy.MessageIsObject(e.message);
  }

  // ------------------------------------------------------------ steps and the two traces

  /** Steps that change the rows only as the channel side may. */
  predicate ChannelAction(action: Action) {
    !action.Dispatch? && !action.Transport? && !action.Show? && !action.Crash?
  }

  lemma ChannelActionSide(config: Config, agent: Agent, w: World, action: Action, w': World)
    requires ChannelAction(action) && Moves(config, agent, w, action, w')
    ensures P.ChannelSide(w.rows, w'.rows)
  {
    hide Decode, DeskNext, KeyOf, StatusMessage, IsText;
    if action.Ingest? { DeliverSide(config, agent, w.rows, w.mail.log.events[w.cursor]); }
  }

  lemma DeliverSide(config: Config, agent: Agent, rows: map<string, Row>, e: Event)
    ensures P.ChannelSide(rows, Deliver(config, agent, rows, e))
  {
    hide Decode;
  }

  /** No event up to `head` ended the task. */
  ghost predicate OpenAt(events: seq<Event>, task: string, head: nat) {
    && head <= |events|
    && (task in Fold(events[..head]).tasks ==> !Terminal(Fold(events[..head]).tasks[task].status))
  }

  /** In this step the task is dispatched: it is in the queue before, and no longer after. */
  predicate Posts(w: World, w': World, task: string) {
    task in w.rows && task in w'.rows && w.rows[task].phase == Queued && Active(w'.rows[task].phase)
  }

  /** A task is posted only under the HEAD that was read last, with everything up to it
      applied, none of which ended the task. */
  ghost predicate PostsOpenly(w: World, w': World) {
    forall t {:trigger Posts(w, w', t)} :: Posts(w, w', t) ==> w.cursor == w.visible && OpenAt(w.mail.log.events, t, w.cursor)
  }

  ghost predicate PostsOpen(run: seq<World>) {
    forall n {:trigger run[n]} :: 0 < n < |run| ==> PostsOpenly(run[n - 1], run[n])
  }

  /** The task is posted in one of these steps of the run. */
  ghost predicate PostedIn(run: seq<World>, from: nat, task: string) {
    exists n {:trigger run[n]} :: 0 < n < |run| && from <= n && Posts(run[n - 1], run[n], task)
  }

  lemma PostedOn(run: seq<World>, run': seq<World>, from: nat, from': nat, task: string)
    requires PostedIn(run, from, task) && run <= run' && from' <= from
    ensures PostedIn(run', from', task)
  {
    hide Posts;
    var n :| 0 < n < |run| && from <= n && Posts(run[n - 1], run[n], task);
    assert run'[n] == run[n] && run'[n - 1] == run[n - 1];
  }

  /** A run of the group in which every post is made openly. */
  ghost predicate GoodRun(config: Config, agent: Agent, run: seq<World>) {
    IsRun(config, agent, run) && PostsOpen(run)
  }

  lemma GrowRun(config: Config, agent: Agent, run: seq<World>, action: Action, w': World)
    requires GoodRun(config, agent, run) && Moves(config, agent, run[|run| - 1], action, w') && PostsOpenly(run[|run| - 1], w')
    ensures GoodRun(config, agent, run + [w'])
  {
    hide Moves, PostsOpenly;
    assert (run + [w'])[..|run|] == run;
    var longer := run + [w'];
    forall n {:trigger longer[n]} | 0 < n < |longer| ensures PostsOpenly(longer[n - 1], longer[n]) {
      if n < |run| { assert longer[n] == run[n] && longer[n - 1] == run[n - 1]; }
    }
  }

  /** Steps of the channel side post nothing. */
  lemma SideIsOpen(w: World, w': World)
    requires w'.rows == w.rows || P.ChannelSide(w.rows, w'.rows)
    ensures PostsOpenly(w, w')
  {
  }

  lemma SameRowsOpen(w: World, w': World)
    requires w'.rows == w.rows
    ensures PostsOpenly(w, w')
  {
  }

  // ------------------------------------------------------------ the client's steps

  lemma {:induction false} DeskRunFacts(config: Config, me: string, desks: seq<Desk>, i: nat, j: nat)
    requires Client.IsDeskRun(config, me, desks) && i <= j < |desks|
    ensures DeskInv(config, me, desks[j]) && desks[i].sent <= desks[j].sent
    ensures j > 0 ==> Client.DeskCanStep(config, me, desks[j - 1], desks[j])
    decreases |desks|
  {
    hide DeskNext;
    if |desks| > 1 {
      var past := desks[..|desks| - 1];
      if j < |desks| - 1 {
        DeskRunFacts(config, me, past, i, j);
      } else {
        DeskRunFacts(config, me, past, if i < j then i else j - 1, j - 1);
        var step: DeskStep :| DeskNext(config, me, desks[j - 1], step, desks[j]);
        DeskKeepsInv(config, me, desks[j - 1], step, desks[j]);
      }
    }
  }

  /** The world as the desk moves on while everything else stands still. */
  function Lifted(w: World, desks: seq<Desk>): seq<World> {
    seq(|desks|, i requires 0 <= i < |desks| => w.(mail := w.mail.(desk := desks[i])))
  }

  function WithDesk(w: World, desk: Desk): World {
    w.(mail := w.mail.(desk := desk))
  }

  lemma LiftedGrows(w: World, run: seq<World>, desks: seq<Desk>, k: nat, j: nat)
    requires 0 < k < j <= |desks| && |run| > 0 && run[|run| - 1] == WithDesk(w, desks[k - 1])
    ensures run + Lifted(w, desks[k..j]) == run + Lifted(w, desks[k..j - 1]) + [WithDesk(w, desks[j - 1])]
    ensures var past := run + Lifted(w, desks[k..j - 1]); |past| > 0 && past[|past| - 1] == WithDesk(w, desks[j - 2])
  {
    assert desks[k..j] == desks[k..j - 1] + [desks[j - 1]];
  }

  /** Steps of the client that queue nothing are transport steps of the group. */
  lemma {:induction false} LiftRun(config: Config, agent: Agent, run: seq<World>, w: World, desks: seq<Desk>, k: nat, j: nat)
    requires GoodRun(config, agent, run) && Client.IsDeskRun(config, agent.me, desks)
    requires 0 < k <= j <= |desks| && |run| > 0 && run[|run| - 1] == w && w.mail.desk == desks[k - 1]
    requires desks[|desks| - 1].sent == desks[k - 1].sent
    ensures GoodRun(config, agent, run + Lifted(w, desks[k..j]))
    decreases j
  {
    hide Moves, GoodRun, Client.IsDeskRun, DeskInv, Lifted;
    if j == k {
      assert run + Lifted(w, desks[k..k]) == run by { NoDesks(w, desks[k..k]); }
    } else {
      LiftRun(config, agent, run, w, desks, k, j - 1);
      var past := run + Lifted(w, desks[k..j - 1]);
      LiftedGrows(w, run, desks, k, j);
      SentStays(config, agent.me, desks, k - 1, j - 2);
      SentStays(config, agent.me, desks, k - 1, j - 1);
      LiftOnce(config, agent, past, w, desks[j - 2], desks[j - 1]);
    }
  }

  lemma LiftedEnds(run: seq<World>, w: World, desks: seq<Desk>, k: nat)
    requires 0 < k <= |desks| && |run| > 0 && run[|run| - 1] == w && w.mail.desk == desks[k - 1]
    ensures var grown := run + Lifted(w, desks[k..]);
            run <= grown && grown[|grown| - 1] == WithDesk(w, desks[|desks| - 1])
  {
  }

  lemma DesksRun(config: Config, agent: Agent, run: seq<World>, w: World, desks: seq<Desk>, k: nat)
    requires GoodRun(config, agent, run) && Client.IsDeskRun(config, agent.me, desks)
    requires 0 < k <= |desks| && |run| > 0 && run[|run| - 1] == w && w.mail.desk == desks[k - 1]
    requires desks[|desks| - 1].sent == desks[k - 1].sent
    ensures var grown := run + Lifted(w, desks[k..]);
            && GoodRun(config, agent, grown) && run <= grown && |grown| > 0
            && grown[|grown| - 1] == WithDesk(w, desks[|desks| - 1])
  {
    hide GoodRun, Client.IsDeskRun, Lifted;
    LiftRun(config, agent, run, w, desks, k, |desks|);
    LiftedEnds(run, w, desks, k);
    assert desks[k..|desks|] == desks[k..];
  }

  lemma NoDesks(w: World, desks: seq<Desk>)
    requires desks == []
    ensures Lifted(w, desks) == []
  {
  }

  lemma SentStays(config: Config, me: string, desks: seq<Desk>, i: nat, j: nat)
    requires Client.IsDeskRun(config, me, desks) && i <= j < |desks| && desks[|desks| - 1].sent == desks[i].sent
    ensures desks[j].sent == desks[i].sent
    ensures j > 0 ==> Client.DeskCanStep(config, me, desks[j - 1], desks[j])
  {
    hide Client.IsDeskRun, DeskInv, DeskNext;
    DeskRunFacts(config, me, desks, i, j);
    DeskRunFacts(config, me, desks, j, |desks| - 1);
  }

  lemma LiftOnce(config: Config, agent: Agent, past: seq<World>, w: World, d: Desk, d': Desk)
    requires GoodRun(config, agent, past) && |past| > 0 && past[|past| - 1] == WithDesk(w, d)
    requires Client.DeskCanStep(config, agent.me, d, d') && d'.sent == d.sent
    ensures GoodRun(config, agent, past + [WithDesk(w, d')])
  {
    hide Moves, GoodRun, DeskNext;
    var step: DeskStep :| DeskNext(config, agent.me, d, step, d');
    LiftStep(config, agent, WithDesk(w, d), step, WithDesk(w, d'));
    SameRowsOpen(WithDesk(w, d), WithDesk(w, d'));
    GrowRun(config, agent, past, Transport(Local(step)), WithDesk(w, d'));
  }

  lemma LiftStep(config: Config, agent: Agent, w: World, step: DeskStep, w': World)
    requires DeskNext(config, agent.me, w.mail.desk, step, w'.mail.desk)
    requires w' == w.(mail := w.mail.(desk := w'.mail.desk)) && w'.mail.desk.sent == w.mail.desk.sent
    ensures Moves(config, agent, w, Transport(Local(step)), w')
  {
    hide Request;
  }

  /** How a drain ends. */
  datatype Drained = UpToDate | Behind | Regressed

  /** The operator's three ways out of an unresolved dispatch. Adopting names a message,
      which the bridge then reads. */
  datatype Choice = Adopt(id: nat, seen: Option<Message>) | Repost | Abandon

  /** One round and what comes before it: a power loss and an operator's choice, the HEADs
      that may be read in its three drains, the scan of the roots and the reply pages, and
      the identity, fate and answer of the post. */
  datatype Turn = Turn(
    loss: Option<set<nat>>,
    choice: Option<(string, Choice)>,
    first: seq<nat>,
    second: seq<nat>,
    third: seq<nat>,
    scan: Option<seq<Message>>,
    answers: string -> seq<Page>,
    token: nat,
    emitted: bool,
    answer: Option<P.Outcome>,
    now: int,
    budget: nat)

  /** What the sequencer may take in beside the bridge: the bridge's own next slot, or
      another author's, each with a time and a reason in case it is refused. */
  datatype Admission =
    | Mine(at: int, why: Reason)
    | Theirs(author: string, body: Blob, at: int, why: Reason)

  class Bridge {
    const config: Config
    const agent: Agent
    const maxOutstanding: nat
    const account: string
    const responder: string
    const client: Client.Client
    const outside: nat -> seq<Admission> // what the sequencer takes in at each moment
    var clock: nat
    var log: Log                         // the journal behind the feed
    var visible: nat                     // the HEAD of the bridge's feed
    var rows: map<string, Row>
    var order: seq<string>
    var cursor: nat
    ghost var reposts: map<string, nat>
    ghost var pc: Pc
    ghost var trace: seq<World>
    ghost var offices: seq<P.Office>
    ghost var acts: seq<P.Act>
    ghost var visits: seq<P.Visit> // the rounds of collecting so far

    /** The group as the bridge's ghost state sees it. */
    ghost function Now(): World
      reads this`log, this`visible, this`rows, this`cursor, this`pc
      reads client`queued, client`outbox, client`inbox, client`safe
    {
      World(Mail(client.View(), log), visible, rows, cursor, pc)
    }

    /** All rounds look for the configured responder's results. */
    ghost predicate OwnRounds()
      reads this`visits
    {
      forall k {:trigger visits[k]} :: 0 <= k < |visits| ==> visits[k].act.Collect? && visits[k].act.responder == responder
    }

    /** The dispatch run ends at these rows, with no attempt under way. */
    ghost predicate Filed(rows: map<string, Row>)
      reads this`offices, this`acts, this`visits, this`reposts
    {
      && P.IsHistory(maxOutstanding, offices, acts) && visits == P.Visits(offices, acts) && OwnRounds()
      && offices[|offices| - 1].rows == rows && offices[|offices| - 1].attempt.None?
      && offices[|offices| - 1].reposts == reposts
    }

    ghost predicate Traced()
      reads this`rows, this`trace, this`offices, this`acts, this`visits, this`reposts, this`log, this`visible, this`cursor, this`pc, client
    {
      GoodRun(config, agent, trace) && trace[|trace| - 1] == Now() && Filed(rows)
    }

    ghost predicate Valid()
      reads this`rows, this`order, this`trace, this`offices, this`acts, this`visits, this`reposts, this`log, this`visible, this`cursor, this`pc, client
    {
      && client.Valid() && client.config == config && client.me == agent.me
      && ValidConfig(config) && GoodAgent(config, agent)
      && Lists(order, rows)
      && Traced()
    }

    constructor (config: Config, agent: Agent, maxOutstanding: nat, account: string, responder: string,
                 length: Blob -> nat, outside: nat -> seq<Admission>)
      requires ValidConfig(config) && GoodAgent(config, agent)
      ensures Valid() && fresh(client)
      ensures this.config == config && this.agent == agent && this.maxOutstanding == maxOutstanding
      ensures this.account == account && this.responder == responder && client.length == length && this.outside == outside
      ensures rows == map[] && cursor == 0 && pc == Down && client.View() == EMPTY_DESK
      ensures log == EMPTY_LOG && visible == 0 && clock == 0
      ensures reposts == map[] && offices == [P.EMPTY_OFFICE] && acts == [] && visits == []
    {
      this.config, this.agent, this.maxOutstanding := config, agent, maxOutstanding;
      this.account, this.responder, this.outside := account, responder, outside;
      var c := new Client.Client(config, agent.me, length);
      client := c;
      rows, order, cursor := map[], [], 0;
      log, visible, pc := EMPTY_LOG, 0, Down;
      clock, reposts := 0, map[];
      trace := [World(Mail(EMPTY_DESK, EMPTY_LOG), 0, map[], 0, Down)];
      offices, acts, visits := [P.EMPTY_OFFICE], [], [];
    }

    /** The invariant of the group holds now. */
    lemma Reachable()
      requires Valid()
      ensures SystemInv(config, agent, Now())
    {
      SystemRunInv(config, agent, trace, |trace| - 1);
    }

    /** Records a channel-side step that just happened in both traces. */
    ghost method Note(before: World, action: Action)
      requires GoodRun(config, agent, trace) && trace[|trace| - 1] == before
      requires Filed(before.rows) && ChannelAction(action) && Moves(config, agent, before, action, Now())
      modifies this`trace, this`offices, this`acts
      ensures Traced() && trace == old(trace) + [Now()] && old(offices) <= offices
    {
      hide Moves, P.ChannelSide, GoodRun, P.IsHistory, P.Visits, PostsOpenly;
      ChannelActionSide(config, agent, before, action, Now());
      SideIsOpen(before, Now());
      GrowRun(config, agent, trace, action, Now());
      trace := trace + [Now()];
      P.HistoryLength(maxOutstanding, offices, acts);
      var office := offices[|offices| - 1].(rows := rows);
      assert P.ActOk(maxOutstanding, offices[|offices| - 1], P.Channel(rows), office);
      P.LongerHistory(maxOutstanding, offices, acts, P.Channel(rows), office);
      P.VisitsMore(offices, acts, P.Channel(rows), office);
      offices, acts := offices + [office], acts + [P.Channel(rows)];
    }

    /** Records a step that changes no row. */
    ghost method NoteQuiet(before: World, action: Action)
      requires GoodRun(config, agent, trace) && trace[|trace| - 1] == before
      requires Filed(rows) && rows == before.rows && Moves(config, agent, before, action, Now())
      modifies this`trace
      ensures Traced() && trace == old(trace) + [Now()]
    {
      hide Moves, GoodRun, PostsOpenly;
      SameRowsOpen(before, Now());
      GrowRun(config, agent, trace, action, Now());
      trace := trace + [Now()];
    }

    // ---------------------------------------------------------- what happens outside

    lemma AdmitMoves(w: World, mine: bool, author: string, body: Blob, log': Log)
      requires Accepts(config, w.mail.log, log', author, body)
      requires if mine then author == agent.me && Slot(w.mail.log, author) + 1 in w.mail.desk.inbox && body == w.mail.desk.inbox[Slot(w.mail.log, author) + 1]
               else author != agent.me
      ensures Moves(config, agent, w, Transport(if mine then AdmitMine else AdmitOther(author, body)), w.(mail := w.mail.(log := log')))
      ensures w.mail.log.events <= log'.events
    {
      hide Accepts, Request;
      AcceptsGrows(w.mail.log, log', author, body);
    }

    lemma AcceptsGrows(log: Log, log': Log, author: string, body: Blob)
      requires Accepts(config, log, log', author, body)
      ensures log.events <= log'.events
    {
    }

    /** The sequencer takes in a slot, if it can. */
    method Admit(a: Admission)
      requires Valid()
      modifies this`log, this`trace
      ensures Valid() && old(trace) <= trace && old(log.events) <= log.events
      ensures var author := if a.Mine? then agent.me else a.author;
              var slot := Slot(old(log), author) + 1;
              var body := if a.Theirs? then Some(a.body) else if slot in client.inbox then Some(client.inbox[slot]) else None;
              var log' := if body.None? || (a.Theirs? && author == agent.me) then None else Admitted(config, old(log), author, body.value, a.at, a.why);
              log == if log'.Some? then log'.value else old(log)
    {
      hide Moves, GoodRun, P.IsHistory, P.Visits, GoodAgent, ValidConfig, Lists, DeskInv, Accepts, Admitted, Slot, Client.Client.Valid;
      ghost var before := Now();
      var author := if a.Mine? then agent.me else a.author;
      var slot := Slot(log, author) + 1;
      if a.Mine? && slot !in client.inbox { return; }
      if a.Theirs? && author == agent.me { return; }
      var body := if a.Mine? then client.inbox[slot] else a.body;
      var log' := Admitted(config, log, author, body, a.at, a.why);
      if log'.None? { return; }
      SameWorld(before);
      AdmitMoves(before, a.Mine?, author, body, log'.value);
      log := log'.value;
      SameWorld(before);
      NoteQuiet(before, Transport(if a.Mine? then AdmitMine else AdmitOther(author, body)));
    }

    lemma SameWorld(w: World)
      requires w.mail.desk == client.View() && w.visible == visible && w.rows == rows && w.cursor == cursor && w.pc == pc
      ensures Now() == w.(mail := w.mail.(log := log)) && w.mail.desk.inbox == client.inbox
    {
    }

    /** A moment passes. */
    method Elapse()
      requires Valid()
      modifies this`log, this`clock, this`trace
      ensures Valid() && old(trace) <= trace && old(log.events) <= log.events
    {
      hide *;
      var now := outside(clock);
      clock := clock + 1;
      for i := 0 to |now|
        invariant Valid() && old(trace) <= trace && old(log.events) <= log.events
      {
        Admit(now[i]);
      }
    }

    // ---------------------------------------------------------- feed intake

    /** A HEAD becomes visible. */
    method See(head: nat)
      requires Valid() && head <= |log.events|
      modifies this`visible, this`trace
      ensures Valid() && visible == head && old(trace) <= trace
    {
      hide Moves, GoodRun, P.IsHistory, P.Visits, GoodAgent, ValidConfig, Lists, DeskInv;
      var before := Now();
      visible := head;
      ShowMoves(before, head);
      NoteQuiet(before, Show(head));
    }

    /** The effect of one event on the rows, in place. */
    method Change(e: Event)
      requires Lists(order, rows) && OwnSlots(rows)
      modifies this`rows, this`order
      ensures rows == Deliver(config, agent, old(rows), e)
      ensures Lists(order, rows) && old(order) <= order
      ensures Changed(config, agent, old(rows), e, rows)
    {
      hide Decode, OwnSlots, Changed;
      DeliverChanges(config, agent, rows, e);
      if e.author == agent.me {
        rows := SettleOne(rows, order, e);
      }
      if !e.Accepted() { return; }
      CommandIsObject(e.message);
      match Decode(e.message)
      case Some(Assign(task, assignee)) =>
        if assignee == agent.me && IsCoordinator(config, e.author) && task !in rows {
          var allowed := agent.policy(task, Get(e.message.fields, "text"));
          rows := rows[task := Row(if allowed then Queued else Rejected, Assigned, e.n, Idle, NO_TEAMS)];
          order := order + [task];
        }
      case Some(Report(task, _, status)) =>
        if task in rows {
          var row := rows[task].(fsStatus := status, revision := e.n);
          if status in {Completed, Failed} {
            row := row.(phase := Done);
          } else if status == Cancelled {
            row := row.(phase := Withdrawn);
          }
          rows := rows[task := row];
        }
      case _ =>
    }

    /** Applies the next event of the feed and advances the cursor, in one transaction. */
    method Apply(e: Event)
      requires Valid() && pc == Up && cursor < visible <= |log.events| && e == log.events[cursor]
      modifies this`rows, this`order, this`cursor, this`trace, this`offices, this`acts
      ensures Valid() && old(trace) <= trace && old(offices) <= offices
      ensures rows == Deliver(config, agent, old(rows), e) && cursor == old(cursor) + 1
      ensures old(order) <= order
    {
      hide Moves, SystemInv, GoodRun, GoodAgent, P.IsHistory, P.Visits, Deliver, DeskInv, Lists, OwnSlots, ValidConfig;
      ghost var before := Now();
      Reachable();
      SlotsAreOwn(config, agent, before);
      Change(e);
      cursor := cursor + 1;
      IngestMoves(before, Now());
      Note(before, System.Ingest);
    }

    lemma ShowMoves(w: World, head: nat)
      requires head <= |w.mail.log.events|
      ensures Moves(config, agent, w, Show(head), w.(visible := head))
    {
    }

    lemma IngestMoves(w: World, w': World)
      requires w.pc == Up && w.cursor < w.visible <= |w.mail.log.events|
      requires w' == w.(rows := Deliver(config, agent, w.rows, w.mail.log.events[w.cursor]), cursor := w.cursor + 1)
      ensures Moves(config, agent, w, System.Ingest, w')
    {
      hide Deliver;
    }

    lemma CursorBound()
      requires Valid()
      ensures cursor <= |log.events|
    {
      hide MailInv, RowsOk, EventsOk, Client.Client.Valid, Lists, GoodRun;
      Reachable();
    }

    /** One page of the feed under the HEAD that is visible by now, at most this one; none,
        and no change, when that HEAD is behind the cursor. */
    method Ingest(head: nat) returns (count: Option<nat>)
      requires Valid() && pc == Up
      modifies this`rows, this`order, this`cursor, this`log, this`clock, this`visible, this`trace, this`offices, this`acts
      ensures Valid() && old(trace) <= trace && old(offices) <= offices && old(order) <= order
      ensures old(log.events) <= log.events && visible == if head < |log.events| then head else |log.events|
      ensures count.None? <==> visible < old(cursor)
      ensures cursor == PageEnd(old(cursor), visible)
      ensures count.Some? ==> count.value == cursor - old(cursor)
      ensures old(cursor) <= cursor <= |log.events|
      ensures rows == DeliverAll(config, agent, old(rows), log.events[old(cursor)..cursor])
    {
      hide *;
      Elapse();
      CursorBound();
      See(if head < |log.events| then head else |log.events|);
      ghost var start := cursor;
      DeliverOn(config, agent, rows, log.events, cursor, cursor, cursor);
      PageEndIs(cursor, visible);
      if visible < cursor { return None; }
      var end := PageEnd(cursor, visible);
      count := Some(end - cursor);
      ghost var journal, shown := log, visible;
      while cursor < end
        invariant Valid() && old(trace) <= trace && old(offices) <= offices && old(order) <= order
        invariant start <= cursor <= end <= visible && log == journal && visible == shown
        invariant rows == DeliverAll(config, agent, old(rows), log.events[start..cursor])
        decreases end - cursor
      {
        DeliverOn(config, agent, old(rows), log.events, start, cursor, cursor + 1);
        Apply(log.events[cursor]);
      }
    }

    /** Where a page under a HEAD ends. */
    function PageEnd(after: nat, head: nat): nat {
      if head < after then after else if head - after < config.pageSize then head else after + config.pageSize
    }

    lemma PageEndIs(after: nat, head: nat)
      ensures PageEnd(after, head) == if head < after then after else if head - after < config.pageSize then head else after + config.pageSize
    {
    }

    /** Applies pages until one is short; up to date only when everything up to the last
        HEAD read is applied. A HEAD behind the cursor stops it. The journal may grow from
        page to page. */
    method Drain(heads: seq<nat>) returns (drained: Drained)
      requires Valid() && pc == Up && |heads| > 0
      modifies this`rows, this`order, this`cursor, this`log, this`clock, this`visible, this`trace, this`offices, this`acts
      ensures Valid() && old(trace) <= trace && old(offices) <= offices && old(order) <= order
      ensures old(log.events) <= log.events && visible <= |log.events|
      ensures drained.UpToDate? ==> cursor == visible
      ensures drained.Behind? ==> cursor <= visible
      ensures drained.Regressed? <==> visible < cursor
      ensures old(cursor) <= cursor <= |log.events|
      ensures rows == DeliverAll(config, agent, old(rows), log.events[old(cursor)..cursor])
    {
      hide *;
      ghost var start := cursor;
      CursorBound();
      DeliverOn(config, agent, rows, log.events, cursor, cursor, cursor);
      var calls := 0;
      while calls < |heads|
        invariant Valid() && old(trace) <= trace && old(offices) <= offices && old(order) <= order
        invariant old(log.events) <= log.events
        invariant calls <= |heads| && start <= cursor <= |log.events|
        invariant calls > 0 ==> cursor <= visible <= |log.events|
        invariant rows == DeliverAll(config, agent, old(rows), log.events[start..cursor])
      {
        ghost var past, journal := cursor, log.events;
        PageEndIs(cursor, 0);
        var count := Ingest(heads[calls]);
        PageEndIs(past, visible);
        assert log.events[start..past] == journal[start..past];
        DeliverOn(config, agent, old(rows), log.events, start, past, cursor);
        calls := calls + 1;
        if count.None? { return Regressed; }
        if count.value < config.pageSize { return UpToDate; }
      }
      return Behind;
    }

    // ---------------------------------------------------------- recovery and sending

    lemma RecoverMoves(w: World, task: string)
      requires w.pc == Down && task in w.rows && w.rows[task].pending.Intent?
      ensures Moves(config, agent, w, Recover(task), w.(rows := w.rows[task := Recovered(w.rows[task], w.mail.desk.sent)]))
    {
    }

    lemma ReadyMoves(w: World)
      requires w.pc == Down && forall t :: t in w.rows ==> !w.rows[t].pending.Intent?
      ensures Moves(config, agent, w, Ready, w.(pc := Up))
    {
    }

    /** The client's key table finds the slot of a key it was given. */
    lemma KeyTable(key: Key)
      requires client.Valid()
      ensures key in client.sent <==> HasKey(client.queued, key)
      ensures key in client.sent ==> client.sent[key].slot == SlotOf(client.queued, key)
    {
      hide Bodies, Covered, Client.IsDeskRun;
      if key in client.sent { client.SentRow(key); }
    }

    /** One intent that a crash left behind: in flight under the slot the client gave it,
        or dropped if the client never had it. */
    method RecoverOne(task: string)
      requires Valid() && pc == Down && task in rows && rows[task].pending.Intent?
      modifies this`rows, this`trace, this`offices, this`acts
      ensures Valid() && old(trace) <= trace && old(offices) <= offices
      ensures rows == old(rows)[task := Recovered(old(rows)[task], client.queued)]
    {
      hide DeskInv, Moves, GoodRun, GoodAgent, ValidConfig, P.IsHistory, P.Visits, Recovered, Client.IsDeskRun;
      ghost var before := Now();
      var row := rows[task];
      var key := row.pending.key;
      KeyTable(key);
      var known := if key in client.sent then InFlight(key, row.pending.body, client.sent[key].slot) else Idle;
      rows := rows[task := row.(pending := known)];
      RecoveredIs(row, client.queued);
      RecoverMoves(before, task);
      Note(before, Recover(task));
    }

    ghost method GetReady()
      requires Valid() && pc == Down && forall t :: t in rows ==> !rows[t].pending.Intent?
      modifies this`pc, this`trace, this`offices, this`acts
      ensures Valid() && pc == Up && old(trace) <= trace && old(offices) <= offices
    {
      hide DeskInv, Moves, GoodRun, GoodAgent, ValidConfig, P.IsHistory, P.Visits, Client.IsDeskRun;
      var before := Now();
      pc := Up;
      ReadyMoves(before);
      Note(before, Ready);
    }

    lemma Listed()
      requires Valid()
      ensures forall i :: 0 <= i < |order| ==> order[i] in rows
      ensures forall t :: t in rows ==> t in order
      ensures forall i, j :: 0 <= i < j < |order| ==> order[i] != order[j]
    {
    }

    /** Settles all intents, before any intake can pass their slots. */
    method RecoverPending()
      requires Valid() && pc == Down
      modifies this`rows, this`pc, this`trace, this`offices, this`acts
      ensures Valid() && pc == Up && old(trace) <= trace && old(offices) <= offices
      ensures rows.Keys == old(rows.Keys)
      ensures forall t :: t in rows ==>
                rows[t] == if old(rows)[t].pending.Intent? then Recovered(old(rows)[t], client.queued) else old(rows)[t]
    {
      hide *;
      Listed();
      for i := 0 to |order|
        invariant Valid() && pc == Down && old(trace) <= trace && old(offices) <= offices
        invariant rows.Keys == old(rows.Keys)
        invariant forall j :: 0 <= j < i ==>
          rows[order[j]] == if old(rows)[order[j]].pending.Intent? then Recovered(old(rows)[order[j]], client.queued) else old(rows)[order[j]]
        invariant forall j :: i <= j < |order| ==> rows[order[j]] == old(rows)[order[j]]
      {
        if rows[order[i]].pending.Intent? { RecoverOne(order[i]); }
      }
      forall t | t in rows
        ensures rows[t] == if old(rows)[t].pending.Intent? then Recovered(old(rows)[t], client.queued) else old(rows)[t]
        ensures !rows[t].pending.Intent?
      {
        assert t in order;
        if old(rows)[t].pending.Intent? { RecoveredIs(old(rows)[t], client.queued); }
      }
      GetReady();
    }

    lemma RecoveredIs(row: Row, sent: seq<Sent>)
      requires row.pending.Intent?
      ensures Recovered(row, sent) == row.(pending :=
                if HasKey(sent, row.pending.key) then InFlight(row.pending.key, row.pending.body, SlotOf(sent, row.pending.key)) else Idle)
      ensures !Recovered(row, sent).pending.Intent?
    {
    }

    lemma ClientRun()
      requires client.Valid()
      ensures Client.IsDeskRun(client.config, client.me, client.trace)
      ensures |client.trace| > 0 && client.trace[|client.trace| - 1] == client.View() && client.View().sent == client.queued
    {
    }

    /** What Valid says, part by part. */
    lemma Parts()
      requires Valid()
      ensures client.Valid() && client.config == config && client.me == agent.me
      ensures ValidConfig(config) && GoodAgent(config, agent) && Lists(order, rows)
      ensures GoodRun(config, agent, trace) && |trace| > 0 && trace[|trace| - 1] == Now()
      ensures Filed(rows)
    {
    }

    lemma Whole()
      requires client.Valid() && client.config == config && client.me == agent.me
      requires ValidConfig(config) && GoodAgent(config, agent) && Lists(order, rows)
      requires GoodRun(config, agent, trace) && |trace| > 0 && trace[|trace| - 1] == Now()
      requires Filed(rows)
      ensures Valid()
    {
    }

    lemma Look()
      ensures Now() == World(Mail(client.View(), log), visible, rows, cursor, pc)
    {
    }

    lemma Swap(w: World, desk: Desk)
      ensures WithDesk(w, desk) == World(Mail(desk, w.mail.log), w.visible, w.rows, w.cursor, w.pc)
    {
    }

    /** Delivers the outbox. */
    method Sync(budget: nat) returns (done: bool)
      requires Valid()
      modifies client`outbox, client`inbox, client`safe, client`trace, this`trace
      ensures Valid() && old(trace) <= trace && (done ==> client.outbox == map[])
      ensures client.outbox.Keys <= old(client.outbox.Keys)
    {
      hide *;
      Parts();
      ClientRun();
      Look();
      ghost var before := Now();
      ghost var k := |client.trace|;
      var published;
      published, done := client.Sync(budget);
      ClientRun();
      DesksRun(config, agent, trace, before, client.trace, k);
      Look();
      Swap(before, client.View());
      trace := trace + Lifted(before, client.trace[k..]);
      Whole();
    }

    // ---------------------------------------------------------- reporting

    /** The client measures a status request by its rendered size. */
    ghost predicate Measures() {
      forall frame: F.Frame, text: string, slot: nat {:trigger F.RequestSize(frame, text, slot)} ::
        frame.author == agent.me && frame.channel == config.channel ==>
          client.length(Request(config, agent.me, slot, StatusMessage(frame.task, frame.revision, frame.status, text)))
            == F.RequestSize(frame, text, slot)
    }

    lemma PlanMoves(w: World, task: string, status: Status, text: string)
      requires w.pc == Up && task in w.rows && w.rows[task].pending == Idle
      requires status in Transitions(w.rows[task].fsStatus) && status != Cancelled && IsText(Str(text))
      ensures var body := StatusMessage(task, w.rows[task].revision, status, text);
              var row := w.rows[task].(pending := Intent(KeyOf(task, status, w.rows[task].revision, body), body));
              Moves(config, agent, w, Plan(task, status, text), w.(rows := w.rows[task := row], pc := Sending(task)))
    {
      hide IsText, KeyOf, StatusMessage;
    }

    lemma SendMoves(w: World, desk: Desk)
      requires w.pc.Sending? && w.pc.task in w.rows && w.rows[w.pc.task].pending.Intent?
      requires var p := w.rows[w.pc.task].pending; DeskNext(config, agent.me, w.mail.desk, Queue(Outbox.Sent(p.key, p.body)), desk)
      ensures Moves(config, agent, w, System.Send,
                    w.(mail := w.mail.(desk := desk), pc := Recording(w.pc.task, |w.mail.desk.sent| + 1)))
    {
      hide DeskNext;
    }

    lemma RecordMoves(w: World)
      requires w.pc.Recording? && w.pc.task in w.rows && w.rows[w.pc.task].pending.Intent?
      ensures var p := w.rows[w.pc.task].pending;
              var row := w.rows[w.pc.task].(pending := InFlight(p.key, p.body, w.pc.slot));
              Moves(config, agent, w, System.Record, w.(rows := w.rows[w.pc.task := row], pc := Up))
    {
    }

    lemma CrashMoves(w: World)
      ensures Moves(config, agent, w, System.Crash, w.(pc := Down))
    {
    }

    /** The durable intent of a status, before the client is asked to queue it. */
    method Intend(task: string, status: Status, text: string) returns (key: Key, body: Json)
      requires Valid() && pc == Up && task in rows && rows[task].pending == Idle
      requires status in Transitions(rows[task].fsStatus) && status != Cancelled && IsText(Str(text))
      modifies this`rows, this`pc, this`trace, this`offices, this`acts
      ensures Valid() && pc == Sending(task) && old(trace) <= trace && old(offices) <= offices
      ensures body == StatusMessage(task, old(rows)[task].revision, status, text)
      ensures key == KeyOf(task, status, old(rows)[task].revision, body)
      ensures rows == old(rows)[task := old(rows)[task].(pending := Pending.Intent(key, body))]
      ensures !HasKey(client.queued, key)
    {
      hide Moves, GoodRun, P.IsHistory, P.Visits, GoodAgent, ValidConfig, Lists, Client.Client.Valid, KeyOf, StatusMessage, IsText, SystemInv;
      ghost var before := Now();
      var row := rows[task];
      body := StatusMessage(task, row.revision, status, text);
      key := KeyOf(task, status, row.revision, body);
      rows := rows[task := row.(pending := Pending.Intent(key, body))];
      pc := Sending(task);
      StillListed(before.rows);
      PlanMoves(before, task, status, text);
      Note(before, Plan(task, status, text));
      Reachable();
      SendingIsNew(Now(), task);
    }

    lemma StillListed(was: map<string, Row>)
      requires Lists(order, was) && rows.Keys == was.Keys
      ensures Lists(order, rows)
    {
    }

    lemma SendingIsNew(w: World, task: string)
      requires SystemInv(config, agent, w) && w.pc == Sending(task)
      ensures task in w.rows && w.rows[task].pending.Intent? && !HasKey(w.mail.desk.sent, w.rows[task].pending.key)
    {
      hide MailInv, EventsOk, Mirrors, PendingOk, SentOk, PhaseOk;
    }

    /** Records the slot of the queued status. */
    method RecordSlot(task: string, slot: nat)
      requires Valid() && pc == Recording(task, slot) && task in rows && rows[task].pending.Intent?
      modifies this`rows, this`pc, this`trace, this`offices, this`acts
      ensures Valid() && pc == Up && old(trace) <= trace && old(offices) <= offices
      ensures var p := old(rows)[task].pending;
              rows == old(rows)[task := old(rows)[task].(pending := InFlight(p.key, p.body, slot))]
    {
      hide Moves, GoodRun, P.IsHistory, P.Visits, GoodAgent, ValidConfig, Lists, Client.Client.Valid;
      ghost var before := Now();
      var p := rows[task].pending;
      rows := rows[task := rows[task].(pending := InFlight(p.key, p.body, slot))];
      pc := Up;
      StillListed(before.rows);
      RecordMoves(before);
      Note(before, System.Record);
    }

    ghost method Fall()
      requires Valid()
      modifies this`pc, this`trace
      ensures Valid() && pc == Down && old(trace) <= trace
    {
      hide Moves, GoodRun, P.IsHistory, P.Visits, GoodAgent, ValidConfig, Lists, Client.Client.Valid;
      var before := Now();
      pc := Down;
      CrashMoves(before);
      NoteQuiet(before, System.Crash);
    }

    lemma SlotIsFree()
      requires client.Valid()
      ensures forall slot :: slot in client.outbox ==> slot <= |client.queued|
      ensures |client.queued| <= client.config.maxEvents
    {
      hide Request, Client.IsDeskRun, Client.TablesOf;
      forall slot | slot in client.outbox ensures slot <= |client.queued| {
        assert SlotBody(client.config, client.me, client.queued, slot, client.outbox[slot]);
      }
    }

    /** Queues a message under a new key, which can only fail when the slots are used up. */
    method Ask(key: Key, body: Json) returns (slot: Option<nat>)
      requires client.Valid() && client.config == config && client.me == agent.me
      requires !HasKey(client.queued, key) && Client.GoodKey(key) && |client.outbox| < config.maxPending
      requires |client.queued| < config.maxEvents ==>
                 client.length(Request(config, agent.me, |client.queued| + 1, body)) <= config.maxMessageBytes
      modifies client`outbox, client`sent, client`next, client`queued, client`trace
      ensures client.Valid()
      ensures slot.Some? ==>
                && DeskNext(config, agent.me, old(client.View()), Queue(Outbox.Sent(key, body)), client.View())
                && slot.value == |client.queued| == |old(client.queued)| + 1
                && client.outbox.Keys == old(client.outbox.Keys) + {slot.value} && slot.value !in old(client.outbox)
      ensures slot.None? ==> |client.queued| == config.maxEvents && client.View() == old(client.View()) && client.outbox == old(client.outbox)
    {
      hide *;
      SlotIsFree();
      NoConflict(client.queued, key);
      DeskIs();
      ghost var before := client.View();
      var r := client.Queue(body, key);
      DeskIs();
      if r.Failure? { return None; }
      QueueFacts(before, Outbox.Sent(key, body), client.View());
      return Some(r.value);
    }

    /** Hands the pending status to the client. Its key is new, its size fits and there is
        room, so the only possible failure is that the author has no slots left. */
    method Hand(task: string) returns (slot: Option<nat>)
      requires Valid() && pc == Sending(task) && task in rows && rows[task].pending.Intent?
      requires !HasKey(client.queued, rows[task].pending.key) && Client.GoodKey(rows[task].pending.key)
      requires |client.outbox| < config.maxPending
      requires |client.queued| < config.maxEvents ==>
                 client.length(Request(config, agent.me, |client.queued| + 1, rows[task].pending.body)) <= config.maxMessageBytes
      modifies client`outbox, client`sent, client`next, client`queued, client`trace, this`pc, this`trace, this`offices, this`acts
      ensures Valid() && old(trace) <= trace && old(offices) <= offices
      ensures slot.Some? ==> pc == Recording(task, slot.value) && slot.value == |client.queued| == |old(client.queued)| + 1
      ensures slot.Some? ==> client.outbox.Keys == old(client.outbox.Keys) + {slot.value} && slot.value !in old(client.outbox)
      ensures slot.None? ==> |client.queued| == config.maxEvents && pc == Down && client.outbox == old(client.outbox)
    {
      hide *;
      Parts();
      Look();
      DeskIs();
      ghost var before := Now();
      slot := Ask(rows[task].pending.key, rows[task].pending.body);
      Look();
      if slot.None? {
        Whole();
        Fall();
        return;
      }
      pc := Recording(task, slot.value);
      Swap(before, client.View());
      SendMoves(before, client.View());
      Look();
      SendSide();
      Note(before, System.Send);
      TracedParts();
      Whole();
    }

    lemma DeskIs()
      ensures client.View() == Desk(client.queued, client.outbox, client.inbox, client.safe)
    {
    }

    lemma QueueFacts(d: Desk, item: Sent, d': Desk)
      requires DeskNext(config, agent.me, d, Queue(item), d') && forall slot :: slot in d.outbox ==> slot <= |d.sent|
      ensures |d'.sent| == |d.sent| + 1
      ensures d'.outbox.Keys == d.outbox.Keys + {|d'.sent|} && |d'.sent| !in d.outbox
    {
      hide Request;
    }

    lemma SendSide()
      ensures ChannelAction(System.Send)
    {
    }

    lemma TracedParts()
      requires Traced()
      ensures GoodRun(config, agent, trace) && |trace| > 0 && trace[|trace| - 1] == Now() && Filed(rows)
    {
    }

    lemma NoConflict(sent: seq<Sent>, key: Key)
      requires !HasKey(sent, key)
      ensures !exists i :: 0 <= i < |sent| && sent[i].key == key
    {
    }

    /** The status this row would send next, if any. */
    function Next(row: Row, now: int, timeout: int): Option<Status> {
      var wanted := Wanted(row, now, timeout);
      if row.pending != Idle || wanted.None? then None else NextStatus(row.fsStatus, wanted.value)
    }

    lemma NextFacts(row: Row, now: int, timeout: int)
      requires Next(row, now, timeout).Some?
      ensures row.pending == Idle && Next(row, now, timeout).value in Transitions(row.fsStatus)
      ensures Next(row, now, timeout).value != Cancelled
    {
    }

    /** The row waits for a report of this status at its revision. */
    ghost predicate Reports(task: string, was: Row, row: Row, status: Status) {
      && row == was.(pending := row.pending) && row.pending.InFlight?
      && IsReport(row.pending.body)
      && Rep(row.pending.body) == Command.Report(task, was.revision, status)
    }

    lemma FrameIsGood(task: string, status: Status)
      requires Valid() && task in rows
      ensures F.GoodFrame(F.Frame(agent.me, config.channel, task, rows[task].revision, status)) && IsName(task)
    {
      hide Decode, Fold, History, GoodRun, P.IsHistory, P.Visits, EventsOk, Mirrors, PendingOk, SentOk, PcOk, DeskInv, Client.Client.Valid;
      Reachable();
      CursorRevision(config, agent, Now(), task);
    }

    /** Intent, queueing and slot of one status, its text cut to size. */
    method SendStatus(task: string, status: Status, text: string) returns (ok: bool)
      requires Valid() && pc == Up && task in rows && rows[task].pending == Idle && Measures()
      requires status in Transitions(rows[task].fsStatus) && status != Cancelled && IsText(Str(text))
      requires |client.outbox| < config.maxPending
      modifies this`rows, this`pc, this`trace, this`offices, this`acts
      modifies client`outbox, client`sent, client`next, client`queued, client`trace
      ensures Valid() && old(trace) <= trace && old(offices) <= offices
      ensures ok ==> pc == Up && task in rows && rows == old(rows)[task := rows[task]] && Reports(task, old(rows)[task], rows[task], status)
      ensures ok ==> |client.queued| == |old(client.queued)| + 1 && |client.outbox| == |old(client.outbox)| + 1
      ensures !ok ==> |client.queued| == config.maxEvents && pc == Down
      ensures rows.Keys == old(rows.Keys) && forall t :: t in rows ==> rows[t].teams == old(rows)[t].teams
    {
      hide *;
      Room();
      FrameIsGood(task, status);
      var was := rows[task];
      var frame := F.Frame(agent.me, config.channel, task, was.revision, status);
      var fitted, rounds := F.FitText(config, frame, text);
      Measured(frame, fitted.value, |client.queued| + 1);
      var key, body := Intend(task, status, fitted.value);
      KeyIsGood(key);
      var slot := Hand(task);
      if slot.None? { return false; }
      RecordSlot(task, slot.value);
      ItReports(task, was, rows[task], status, fitted.value);
      return true;
    }

    lemma Room()
      requires Valid()
      ensures ValidConfig(config) && client.config == config && client.me == agent.me
      ensures |client.queued| <= config.maxEvents
      ensures forall slot :: slot in client.outbox ==> slot <= |client.queued|
    {
      SlotIsFree();
    }

    lemma Measured(frame: F.Frame, text: string, slot: nat)
      requires Measures() && frame.author == agent.me && frame.channel == config.channel
      ensures client.length(Request(config, agent.me, slot, StatusMessage(frame.task, frame.revision, frame.status, text)))
              == F.RequestSize(frame, text, slot)
    {
      hide F.RequestSize, Request, StatusMessage;
    }

    lemma KeyIsGood(key: Key)
      requires key.Derived?
      ensures Client.GoodKey(key)
    {
    }

    lemma ItReports(task: string, was: Row, row: Row, status: Status, text: string)
      requires IsName(task) && IsText(Str(text)) && row == was.(pending := row.pending) && row.pending.InFlight?
      requires row.pending.body == StatusMessage(task, was.revision, status, text)
      ensures Reports(task, was, row, status)
    {
      hide Decode, StatusMessage, IsText, IsName;
      StatusMessageDecodes(task, was.revision, status, text);
    }

    /** What a report round did to one row. */
    ghost predicate Reported(task: string, was: Row, row: Row, now: int, timeout: int) {
      Next(was, now, timeout).Some? && Reports(task, was, row, Next(was, now, timeout).value)
    }

    lemma IsReported(task: string, was: Row, row: Row, now: int, timeout: int)
      requires Next(was, now, timeout).Some? && Reports(task, was, row, Next(was, now, timeout).value)
      ensures Reported(task, was, row, now, timeout)
    {
    }

    /** Sends the next status of one row, if it has one. */
    method ReportOne(task: string, now: int, timeout: int, say: (string, Status) -> string) returns (sent: bool, ok: bool)
      requires Valid() && pc == Up && Measures() && task in rows && |client.outbox| < config.maxPending
      requires forall t, s :: IsText(Str(say(t, s)))
      modifies this`rows, this`pc, this`trace, this`offices, this`acts
      modifies client`outbox, client`sent, client`next, client`queued, client`trace
      ensures Valid() && old(trace) <= trace && old(offices) <= offices
      ensures sent <==> Next(old(rows)[task], now, timeout).Some?
      ensures !sent ==> ok && rows == old(rows)
      ensures ok ==> pc == Up && task in rows && rows == old(rows)[task := rows[task]]
      ensures ok && sent ==> Reported(task, old(rows)[task], rows[task], now, timeout)
      ensures ok ==> |client.queued| == |old(client.queued)| + (if sent then 1 else 0) && |client.outbox| == |old(client.outbox)| + (if sent then 1 else 0)
      ensures !ok ==> |client.queued| == config.maxEvents && pc == Down
      ensures rows.Keys == old(rows.Keys) && forall t :: t in rows ==> rows[t].teams == old(rows)[t].teams
    {
      hide *;
      var next := Next(rows[task], now, timeout);
      if next.None? { return false, true; }
      NextFacts(rows[task], now, timeout);
      ok := SendStatus(task, next.value, say(task, next.value));
      if ok { IsReported(task, old(rows)[task], rows[task], now, timeout); }
      return true, ok;
    }

    /** The first n tasks in order have sent their next status, if they have one, and the
        others have not. */
    ghost predicate ReportedTo(was: map<string, Row>, now: map<string, Row>, n: nat, at: int, timeout: int)
      reads this`order
    {
      && now.Keys == was.Keys && (forall t :: t in now ==> now[t].teams == was[t].teams)
      && forall j :: 0 <= j < |order| ==>
           && order[j] in was
           && if j < n && Next(was[order[j]], at, timeout).Some? then Reported(order[j], was[order[j]], now[order[j]], at, timeout)
              else now[order[j]] == was[order[j]]
    }

    lemma NoneReported(was: map<string, Row>, at: int, timeout: int)
      requires Lists(order, was)
      ensures ReportedTo(was, was, 0, at, timeout)
    {
    }

    lemma NextReported(was: map<string, Row>, now: map<string, Row>, now': map<string, Row>, n: nat, at: int, timeout: int)
      requires ReportedTo(was, now, n, at, timeout) && Lists(order, was) && n < |order| && order[n] in now
      requires now'.Keys == now.Keys && forall t :: t in now' ==> now'[t].teams == now[t].teams
      requires order[n] in now' && now' == now[order[n] := now'[order[n]]]
      requires if Next(now[order[n]], at, timeout).Some? then Reported(order[n], now[order[n]], now'[order[n]], at, timeout) else now' == now
      ensures ReportedTo(was, now', n + 1, at, timeout)
    {
      hide Next, Reported;
    }

    lemma TaskOfOrder(was: map<string, Row>, now: map<string, Row>, n: nat, at: int, timeout: int)
      requires ReportedTo(was, now, n, at, timeout) && n < |order|
      ensures order[n] in was && order[n] in now && now[order[n]] == was[order[n]]
    {
    }

    lemma AllReported(was: map<string, Row>, now: map<string, Row>, n: nat, at: int, timeout: int)
      requires ReportedTo(was, now, n, at, timeout) && Lists(order, was)
      ensures now.Keys == was.Keys && forall t :: t in now ==> now[t].teams == was[t].teams
      ensures forall t :: t in now ==> now[t] == was[t] || Reported(t, was[t], now[t], at, timeout)
      ensures n >= |order| ==> forall t :: t in now && Next(was[t], at, timeout).Some? ==> Reported(t, was[t], now[t], at, timeout)
    {
      hide Next, Reported;
      forall t | t in now
        ensures now[t] == was[t] || Reported(t, was[t], now[t], at, timeout)
        ensures n >= |order| && Next(was[t], at, timeout).Some? ==> Reported(t, was[t], now[t], at, timeout)
      {
        var i :| 0 <= i < |order| && order[i] == t;
      }
    }

    lemma ListsNow()
      requires Valid()
      ensures Lists(order, rows)
    {
    }

    /** Sends the next status of every row that has one and waits for none, oldest task
        first, while the outbox has room. It can fail only when the author's slots are
        used up. */
    method Report(now: int, timeout: int, say: (string, Status) -> string) returns (queued: nat, ok: bool)
      requires Valid() && pc == Up && Measures()
      requires forall t, s :: IsText(Str(say(t, s)))
      modifies this`rows, this`pc, this`trace, this`offices, this`acts
      modifies client`outbox, client`sent, client`next, client`queued, client`trace
      ensures Valid() && old(trace) <= trace && old(offices) <= offices
      ensures ok ==> pc == Up && |client.queued| == |old(client.queued)| + queued
      ensures rows.Keys == old(rows).Keys && forall t :: t in rows ==> rows[t].teams == old(rows)[t].teams
      ensures ok ==> forall t :: t in rows ==> rows[t] == old(rows)[t] || Reported(t, old(rows)[t], rows[t], now, timeout)
      ensures ok && |old(client.outbox)| + queued < config.maxPending ==>
                forall t :: t in rows && Next(old(rows)[t], now, timeout).Some? ==> Reported(t, old(rows)[t], rows[t], now, timeout)
      ensures !ok ==> |client.queued| == config.maxEvents && pc == Down
    {
      hide *;
      ListsNow();
      NoneReported(rows, now, timeout);
      ghost var was := rows;
      queued := 0;
      var pending := |client.outbox|;
      for i := 0 to |order|
        invariant Valid() && pc == Up && old(trace) <= trace && old(offices) <= offices
        invariant |client.queued| == |old(client.queued)| + queued
        invariant |client.outbox| == pending + queued
        invariant ReportedTo(was, rows, i, now, timeout)
      {
        if pending + queued >= config.maxPending {
          AllReported(was, rows, i, now, timeout);
          return queued, true;
        }
        TaskOfOrder(was, rows, i, now, timeout);
        ghost var before := rows;
        var sent;
        sent, ok := ReportOne(order[i], now, timeout, say);
        if !ok {
          SameTeams(was, before, rows, i, now, timeout);
          return queued, false;
        }
        NextReported(was, before, rows, i, now, timeout);
        if sent { queued := queued + 1; }
      }
      AllReported(was, rows, |order|, now, timeout);
      return queued, true;
    }

    lemma SameTeams(was: map<string, Row>, before: map<string, Row>, after: map<string, Row>, n: nat, at: int, timeout: int)
      requires ReportedTo(was, before, n, at, timeout)
      requires after.Keys == before.Keys && forall t :: t in after ==> after[t].teams == before[t].teams
      ensures after.Keys == was.Keys && forall t :: t in after ==> after[t].teams == was[t].teams
    {
    }

    // ---------------------------------------------------------- the Teams side

    ghost predicate FiledAt(office: P.Office)
      reads this`offices, this`acts
    {
      P.IsHistory(maxOutstanding, offices, acts) && offices[|offices| - 1] == office
    }

    /** The rounds of collecting in the dispatch run. */
    ghost function Rounds(office: P.Office): seq<P.Visit>
      requires FiledAt(office)
      reads this`offices, this`acts
    {
      P.Visits(offices, acts)
    }

    /** Everything but the end of the dispatch run. */
    ghost predicate Working()
      reads this`rows, this`order, this`trace, this`log, this`visible, this`cursor, this`pc, client
    {
      && client.Valid() && client.config == config && client.me == agent.me
      && ValidConfig(config) && GoodAgent(config, agent)
      && Lists(order, rows)
      && GoodRun(config, agent, trace) && |trace| > 0 && trace[|trace| - 1] == Now()
    }

    lemma Open() returns (office: P.Office)
      requires Valid()
      ensures Working() && FiledAt(office) && office.rows == rows && office.attempt.None? && office.reposts == reposts && visits == Rounds(office) && OwnRounds()
    {
      office := offices[|offices| - 1];
    }

    lemma Close(office: P.Office)
      requires Working() && FiledAt(office) && office.rows == rows && office.attempt.None? && office.reposts == reposts && visits == Rounds(office) && OwnRounds()
      ensures Valid()
    {
    }

    lemma OfficeFacts(office: P.Office)
      requires FiledAt(office)
      ensures P.OfficeInv(maxOutstanding, office)
    {
      hide P.IsHistory, P.OfficeInv, P.OfficeRun;
      P.RunHasHistory(maxOutstanding, offices);
      P.HistoryLength(maxOutstanding, offices, acts);
      P.OfficeRunInv(maxOutstanding, offices, |offices| - 1);
    }

    lemma DispatchMoves(w: World, task: string, after: Row)
      requires task in w.rows && TeamsChange(w.rows[task], after)
      ensures Moves(config, agent, w, Dispatch(task, after), w.(rows := w.rows[task := after]))
    {
    }

    /** The round that this act is, if it is one. */
    static ghost function RoundOf(office: P.Office, act: P.Act): seq<P.Visit> {
      if act.Collect? then [P.Visit(office.rows, act)] else []
    }

    /** Records a step of the Teams side in both traces. */
    ghost method File(before: World, office: P.Office, act: P.Act, office': P.Office)
      requires GoodRun(config, agent, trace) && |trace| > 0 && trace[|trace| - 1] == before
      requires FiledAt(office) && office.rows == before.rows && !act.Channel?
      requires P.ActOk(maxOutstanding, office, act, office') && office'.rows == rows
      requires Now() == before.(rows := rows) && PostsOpenly(before, Now())
      modifies this`trace, this`offices, this`acts
      ensures GoodRun(config, agent, trace) && |trace| > 0 && trace[|trace| - 1] == Now() && FiledAt(office')
      ensures old(trace) <= trace && old(offices) <= offices
      ensures Rounds(office') == old(Rounds(office)) + RoundOf(office, act)
      ensures trace == if rows != before.rows then old(trace) + [Now()] else old(trace)
    {
      hide GoodRun, Moves, P.IsHistory, P.Visits, P.ActOk, P.OfficeInv, TeamsChange, PostsOpenly;
      OfficeFacts(office);
      P.OfficeIsDispatch(maxOutstanding, office, act, office');
      P.HistoryLength(maxOutstanding, offices, acts);
      P.LongerHistory(maxOutstanding, offices, acts, act, office');
      P.VisitsMore(offices, acts, act, office');
      offices, acts := offices + [office'], acts + [act];
      if rows != before.rows {
        var t :| P.OneRow(before.rows, t, rows);
        DispatchMoves(before, t, rows[t]);
        GrowRun(config, agent, trace, Dispatch(t, rows[t]), Now());
        trace := trace + [Now()];
      } else {
        assert Now() == before;
      }
    }

    /** One act of the Teams side on one row. */
    method SetRow(task: string, row: Row, ghost office: P.Office, ghost act: P.Act, ghost office': P.Office)
      requires Working() && FiledAt(office) && office.rows == rows && task in rows && !act.Channel?
      requires P.ActOk(maxOutstanding, office, act, office') && office'.rows == rows[task := row]
      requires rows[task].phase == Queued && Active(row.phase) ==> cursor == visible && StillOpen(task, cursor)
      modifies this`rows, this`trace, this`offices, this`acts
      ensures Working() && FiledAt(office') && rows == old(rows)[task := row]
      ensures old(trace) <= trace && old(offices) <= offices && Rounds(office') == old(Rounds(office)) + RoundOf(office, act)
      ensures old(rows)[task].phase == Queued && Active(row.phase) ==> PostedIn(trace, |old(trace)|, task)
    {
      hide GoodRun, Lists, GoodAgent, ValidConfig, Client.Client.Valid, P.ActOk, FiledAt, StillOpen;
      ghost var before := Now();
      rows := rows[task := row];
      StillListed(before.rows);
      OneRowOpen(before, task, row, Now());
      File(before, office, act, office');
    }

    lemma OneRowOpen(w: World, task: string, row: Row, w': World)
      requires task in w.rows && w' == w.(rows := w.rows[task := row]) && w.mail.log == log
      requires w.rows[task].phase == Queued && Active(row.phase) ==> w.cursor == w.visible && StillOpen(task, w.cursor)
      ensures PostsOpenly(w, w')
    {
      hide OpenAt;
    }

    /** An act of the Teams side that changes no row. */
    ghost method Pass(office: P.Office, act: P.Act, office': P.Office)
      requires Working() && FiledAt(office) && office.rows == rows && !act.Channel?
      requires P.ActOk(maxOutstanding, office, act, office') && office'.rows == rows
      modifies this`trace, this`offices, this`acts
      ensures Working() && FiledAt(office') && old(trace) <= trace && old(offices) <= offices
      ensures Rounds(office') == old(Rounds(office)) + RoundOf(office, act)
    {
      hide GoodRun, Lists, GoodAgent, ValidConfig, Client.Client.Valid, P.ActOk, FiledAt, PostsOpenly;
      SameRowsOpen(Now(), Now());
      File(Now(), office, act, office');
    }

    /** What a request can come back with: nothing was emitted, or it was. */
    static predicate Possible(emitted: bool, answer: Option<P.Outcome>) {
      answer.Some? ==>
        && (answer.value.NotSent? ==> !emitted)
        && (answer.value.Created? ==> emitted)
        && (answer.value.Http? ==> emitted)
    }

    lemma IntendOk(office: P.Office, task: string, token: nat)
      requires office.attempt.None? && task in office.rows && office.rows[task].phase == Queued
      requires |P.ActiveTasks(office.rows)| < maxOutstanding
      requires office.rows[task].teams.dispatch.None? ==> P.Fresh(office.rows, token)
      ensures var office' := office.(rows := office.rows[task := P.Intended(office.rows[task], token)], attempt := Some(P.Attempt(task, false)));
              P.ActOk(maxOutstanding, office, P.Intend(task, token), office')
    {
      hide P.Fresh, P.ActiveTasks;
    }

    lemma EmitOk(office: P.Office, task: string, dispatch: nat)
      requires office.attempt == Some(P.Attempt(task, false)) && task in office.rows && office.rows[task].teams.dispatch == Some(dispatch)
      ensures P.ActOk(maxOutstanding, office, P.Emit,
                      office.(attempt := Some(P.Attempt(task, true)), flight := office.flight + multiset{P.Post(task, dispatch)}))
    {
    }

    /** The office after an answer: a definite refusal creates nothing. */
    static ghost function AfterAnswer(office: P.Office, task: string, dispatch: nat, outcome: P.Outcome, now: int): P.Office
      requires task in office.rows
    {
      office.(rows := office.rows[task := P.Answered(office.rows[task], outcome, now)], attempt := None,
              flight := if outcome.Http? && outcome.code in P.DEFINITE then office.flight - multiset{P.Post(task, dispatch)} else office.flight)
    }

    lemma AnswerOk(office: P.Office, task: string, dispatch: nat, emitted: bool, outcome: P.Outcome, now: int)
      requires office.attempt == Some(P.Attempt(task, emitted)) && task in office.rows && office.rows[task].teams.dispatch == Some(dispatch)
      requires Possible(emitted, Some(outcome)) && (emitted ==> P.Post(task, dispatch) in office.flight)
      ensures P.ActOk(maxOutstanding, office, P.Answer(outcome, now), AfterAnswer(office, task, dispatch, outcome, now))
    {
      hide P.Answered;
    }

    lemma DieOk(office: P.Office)
      ensures P.ActOk(maxOutstanding, office, P.Die, office.(attempt := None))
    {
    }

    /** Posts a queued task: the intent is durable before the request leaves the process,
        and every answer, or none because the process died, has its own phase. */
    method Post(task: string, token: nat, emitted: bool, answer: Option<P.Outcome>, now: int) returns (posted: bool)
      requires Valid() && pc == Up && task in rows && rows[task].phase == Queued && cursor == visible
      requires |P.ActiveTasks(rows)| < maxOutstanding
      requires rows[task].teams.dispatch.None? ==> P.Fresh(rows, token)
      requires Possible(emitted, answer)
      modifies this`rows, this`pc, this`trace, this`offices, this`acts
      ensures Valid() && old(trace) <= trace && old(offices) <= offices
      ensures var tried := P.Intended(old(rows)[task], token);
              rows == old(rows)[task := if answer.None? then tried else P.Answered(tried, answer.value, now)]
      ensures pc == (if answer.None? then Down else Up)
      ensures posted <==> answer.Some? && answer.value.Created?
      ensures PostedIn(trace, |old(trace)|, task)
    {
      hide *;
      QueuedIsOpen(task);
      ghost var past := trace;
      ghost var office := Open();
      IntendOk(office, task, token);
      var dispatch := if rows[task].teams.dispatch.Some? then rows[task].teams.dispatch.value else token;
      ghost var tried := office.(rows := rows[task := P.Intended(rows[task], token)], attempt := Some(P.Attempt(task, false)));
      var row := rows[task].(phase := Posting, teams := rows[task].teams.(dispatch := Some(dispatch)));
      IntendedIs(rows[task], token);
      NoRound(office, P.Intend(task, token));
      SetRow(task, row, office, P.Intend(task, token), tried);
      ghost var posted' := trace;
      if emitted {
        EmitOk(tried, task, dispatch);
        ghost var sent := tried.(attempt := Some(P.Attempt(task, true)), flight := tried.flight + multiset{P.Post(task, dispatch)});
        NoRound(tried, P.Emit);
        Pass(tried, P.Emit, sent);
        tried := sent;
      }
      if answer.None? {
        DieOk(tried);
        NoRound(tried, P.Die);
        Pass(tried, P.Die, tried.(attempt := None));
        Close(tried.(attempt := None));
        Fall();
        PostedOn(posted', trace, |past|, |past|, task);
        return false;
      }
      AnswerOk(tried, task, dispatch, emitted, answer.value, now);
      AnswerFacts(tried, task, dispatch, answer.value, now);
      NoRound(tried, P.Answer(answer.value, now));
      SetRow(task, P.Answered(row, answer.value, now), tried, P.Answer(answer.value, now), AfterAnswer(tried, task, dispatch, answer.value, now));
      Close(AfterAnswer(tried, task, dispatch, answer.value, now));
      PostedOn(posted', trace, |past|, |past|, task);
      return answer.value.Created?;
    }

    lemma NoRound(office: P.Office, act: P.Act)
      ensures !act.Collect? ==> RoundOf(office, act) == []
      ensures act.Collect? ==> RoundOf(office, act) == [P.Visit(office.rows, act)]
    {
    }

    lemma IntendedIs(row: Row, token: nat)
      ensures P.Intended(row, token) == row.(phase := Posting, teams := row.teams.(dispatch := if row.teams.dispatch.Some? then row.teams.dispatch else Some(token)))
      ensures Active(Posting)
    {
    }

    lemma AnswerFacts(office: P.Office, task: string, dispatch: nat, outcome: P.Outcome, now: int)
      requires task in office.rows
      ensures var after := AfterAnswer(office, task, dispatch, outcome, now);
              after.attempt.None? && after.rows == office.rows[task := P.Answered(office.rows[task], outcome, now)] && after.reposts == office.reposts
    {
    }

    /** The first of the bridge's own roots that carries a row's dispatch identity. */
    function FoundFor(row: Row, roots: seq<Message>): Option<nat> {
      if row.teams.dispatch.Some? then PostOf(account, roots, row.teams.dispatch.value) else None
    }

    lemma FoundIs(row: Row, roots: seq<Message>, found: map<nat, nat>)
      requires row.teams.dispatch.Some? ==>
                 PostOf(account, roots, row.teams.dispatch.value) == if row.teams.dispatch.value in found then Some(found[row.teams.dispatch.value]) else None
      ensures FoundFor(row, roots) == Named(row, found)
    {
    }

    static function Named(row: Row, found: map<nat, nat>): Option<nat> {
      if row.teams.dispatch.Some? && row.teams.dispatch.value in found then Some(found[row.teams.dispatch.value]) else None
    }

    lemma ReconcileOk(office: P.Office, task: string, found: Option<nat>, now: int)
      requires office.attempt.None? && task in office.rows
      ensures P.ActOk(maxOutstanding, office, P.Reconcile(task, found, now),
                      office.(rows := office.rows[task := P.Reconciled(office.rows[task], found, now)]))
    {
    }

    lemma ReconciledIs(row: Row, found: Option<nat>, now: int)
      ensures row.phase == Queued ==> !Active(P.Reconciled(row, found, now).phase)
    {
    }

    /** One row after the scan. */
    method ReconcileOne(task: string, post: Option<nat>, now: int)
      requires Valid() && task in rows
      modifies this`rows, this`trace, this`offices, this`acts
      ensures Valid() && old(trace) <= trace && old(offices) <= offices
      ensures rows == old(rows)[task := P.Reconciled(old(rows)[task], post, now)]
    {
      hide *;
      ghost var office := Open();
      ReconcileOk(office, task, post, now);
      ghost var office' := office.(rows := rows[task := P.Reconciled(rows[task], post, now)]);
      NoRound(office, P.Reconcile(task, post, now));
      ReconciledIs(rows[task], post, now);
      SetRow(task, P.Reconciled(rows[task], post, now), office, P.Reconcile(task, post, now), office');
      Close(office');
    }

    /** After a scan of the channel's roots: every unresolved dispatch is linked to its
        message, or known to be missing. */
    method Reconcile(roots: seq<Message>, now: int)
      requires Valid()
      modifies this`rows, this`trace, this`offices, this`acts
      ensures Valid() && old(trace) <= trace && old(offices) <= offices
      ensures rows.Keys == old(rows.Keys)
      ensures forall t :: t in rows ==> rows[t] == P.Reconciled(old(rows)[t], FoundFor(old(rows)[t], roots), now)
    {
      hide *;
      Listed();
      var found := FindPosts(account, roots);
      for i := 0 to |order|
        invariant Valid() && old(trace) <= trace && old(offices) <= offices
        invariant rows.Keys == old(rows.Keys)
        invariant forall j :: 0 <= j < i ==>
          rows[order[j]] == P.Reconciled(old(rows)[order[j]], FoundFor(old(rows)[order[j]], roots), now)
        invariant forall j :: i <= j < |order| ==> rows[order[j]] == old(rows)[order[j]]
      {
        FoundIs(rows[order[i]], roots, found);
        ReconcileOne(order[i], Named(rows[order[i]], found), now);
      }
      forall t | t in rows ensures rows[t] == P.Reconciled(old(rows)[t], FoundFor(old(rows)[t], roots), now) {
        assert t in order;
      }
    }

    lemma CollectOk(office: P.Office, task: string, roots: seq<Message>, scanned: bool, answers: seq<Page>)
      requires office.attempt.None? && task in office.rows && Active(office.rows[task].phase) && office.rows[task].teams.dispatch.Some?
      ensures P.ActOk(maxOutstanding, office, P.Collect(task, responder, roots, scanned, answers),
                      office.(rows := office.rows[task := P.Visited(responder, task, office.rows[task], roots, scanned, answers)]))
    {
      hide P.Visited;
    }

    lemma VisitedIs(task: string, row: Row, root: Option<Candidate>, roots: seq<Message>, scanned: bool, answers: seq<Page>)
      requires Active(row.phase) && row.teams.dispatch.Some? && root == P.RootOf(responder, task, row, roots)
      ensures P.Visited(responder, task, row, roots, scanned, answers) == Turned(responder, task, row, root, scanned, answers)
    {
    }

    lemma ActiveIsDispatched(task: string)
      requires Valid() && task in rows && Active(rows[task].phase)
      ensures rows[task].teams.dispatch.Some?
    {
      hide P.WithinBudget, P.PostsKnown, P.DistinctDispatch, GoodRun, Client.Client.Valid, Lists, P.ActiveTasks;
      OfficeFacts(offices[|offices| - 1]);
    }

    /** One round of selecting a task's result: reply pages from the stored cursor, then
        commit, keep the candidate, or start over. */
    method Collect(task: string, root: Option<Candidate>, scanned: bool, answers: seq<Page>, ghost roots: seq<Message>) returns (done: bool)
      requires Valid() && task in rows && Active(rows[task].phase) && root == P.RootOf(responder, task, rows[task], roots)
      modifies this`rows, this`trace, this`offices, this`acts, this`visits
      ensures visits == old(visits) + [P.Visit(old(rows), P.Collect(task, responder, roots, scanned, answers))]
      ensures Valid() && old(trace) <= trace && old(offices) <= offices
      ensures old(rows)[task].teams.dispatch.Some?
      ensures rows == old(rows)[task := Turned(responder, task, old(rows)[task], root, scanned, answers)]
      ensures done <==> rows[task].phase == Resulted
    {
      hide *;
      ActiveIsDispatched(task);
      var row := rows[task];
      var best := Earliest(row.teams.candidate, root);
      var swept := Swept(best, None);
      if row.teams.messageId.Some? {
        ThreadIsTaken(task);
        swept := ReadPages(rows, responder, task, answers, StartOf(HuntOf(row)), best);
      }
      var hunt := if swept.Broken? then Hunt(None, None, None)
                  else if swept.cursor.Some? || (swept.best.Some? && !scanned) then Hunt(swept.cursor, swept.best, None)
                  else Hunt(None, None, swept.best);
      TurnIs(task, row, root, scanned, answers, swept, hunt);
      VisitedIs(task, row, root, roots, scanned, answers);
      Commit(task, hunt, roots, scanned, answers);
      return hunt.result.Some?;
    }

    lemma ThreadIsTaken(task: string)
      requires task in rows && Active(rows[task].phase) && rows[task].teams.dispatch.Some?
      ensures Takes(rows, rows[task].teams.messageId, task)
    {
    }

    lemma TurnIs(task: string, row: Row, root: Option<Candidate>, scanned: bool, answers: seq<Page>, swept: Swept, hunt: Hunt)
      requires Active(row.phase) && row.teams.dispatch.Some?
      requires var best := Earliest(row.teams.candidate, root);
               swept == if row.teams.messageId.Some?
                        then Read(Lens(responder, row.teams.messageId, task, row.teams.dispatch.value), answers, StartOf(HuntOf(row)), best)
                        else Swept(best, None)
      requires hunt == if swept.Broken? then Hunt(None, None, None)
                       else if swept.cursor.Some? || (swept.best.Some? && !scanned) then Hunt(swept.cursor, swept.best, None)
                       else Hunt(None, None, swept.best)
      ensures AfterHunt(row, hunt) == Turned(responder, task, row, root, scanned, answers)
      ensures hunt.result.Some? <==> AfterHunt(row, hunt).phase == Resulted
    {
      hide Read, Earliest;
    }

    /** Writes what a round leaves behind into the row. */
    method Commit(task: string, hunt: Hunt, ghost roots: seq<Message>, ghost scanned: bool, ghost answers: seq<Page>)
      requires Valid() && task in rows && Active(rows[task].phase) && rows[task].teams.dispatch.Some?
      requires AfterHunt(rows[task], hunt) == P.Visited(responder, task, rows[task], roots, scanned, answers)
      modifies this`rows, this`trace, this`offices, this`acts, this`visits
      ensures Valid() && old(trace) <= trace && old(offices) <= offices
      ensures rows == old(rows)[task := AfterHunt(old(rows)[task], hunt)]
      ensures visits == old(visits) + [P.Visit(old(rows), P.Collect(task, responder, roots, scanned, answers))]
    {
      hide *;
      ghost var office := Open();
      ghost var act := P.Collect(task, responder, roots, scanned, answers);
      CollectOk(office, task, roots, scanned, answers);
      ghost var office' := office.(rows := rows[task := AfterHunt(rows[task], hunt)]);
      NoRound(office, act);
      ActiveIsNotQueued(rows[task]);
      SetRow(task, AfterHunt(rows[task], hunt), office, act, office');
      visits := visits + [P.Visit(office.rows, act)];
      OneMoreRound(office.rows, act);
      Close(office');
    }

    lemma OneMoreRound(found: map<string, Row>, act: P.Act)
      requires |visits| > 0 && visits[|visits| - 1] == P.Visit(found, act) && act.Collect? && act.responder == responder
      requires forall k {:trigger visits[k]} :: 0 <= k < |visits| - 1 ==> visits[k].act.Collect? && visits[k].act.responder == responder
      ensures OwnRounds()
    {
    }

    lemma ActiveIsNotQueued(row: Row)
      ensures Active(row.phase) ==> row.phase != Queued
    {
    }

    /** What a round does to one dispatched task, given the roots that were scanned. */
    ghost function Gathered(task: string, row: Row, roots: seq<Message>, scanned: bool, answers: seq<Page>): Row {
      if !Active(row.phase) || row.teams.dispatch.None? then row
      else
        var root := Best(Results(Lens(responder, None, task, row.teams.dispatch.value), roots));
        Turned(responder, task, row, root, scanned, answers)
    }

    lemma GatheredIs(task: string, row: Row, roots: seq<Message>, scanned: bool, answers: seq<Page>)
      ensures !Active(row.phase) ==> Gathered(task, row, roots, scanned, answers) == row
      ensures Active(row.phase) && row.teams.dispatch.Some? ==>
                var root := Best(Results(Lens(responder, None, task, row.teams.dispatch.value), roots));
                Gathered(task, row, roots, scanned, answers) == Turned(responder, task, row, root, scanned, answers)
    {
    }

    lemma TakesRoots(task: string)
      requires Valid() && task in rows && Active(rows[task].phase)
      ensures Takes(rows, None, task)
    {
      ActiveIsDispatched(task);
    }

    /** All later visits are rounds over these roots and pages. */
    ghost predicate NewVisits(past: seq<P.Visit>, now: seq<P.Visit>, roots: seq<Message>, scanned: bool, answers: string -> seq<Page>) {
      && past <= now
      && forall k {:trigger now[k]} :: |past| <= k < |now| ==>
           now[k].act.Collect? && now[k].act == P.Collect(now[k].act.task, responder, roots, scanned, answers(now[k].act.task))
    }

    /** The visit found the task's row as it is here. */
    static ghost predicate OwnRow(v: P.Visit, rows: map<string, Row>) {
      v.act.Collect? && v.act.task in rows && v.act.task in v.rows && v.rows[v.act.task] == rows[v.act.task]
    }

    /** The task had a round. */
    static ghost predicate VisitedIn(past: seq<P.Visit>, now: seq<P.Visit>, task: string) {
      exists k {:trigger now[k]} :: |past| <= k < |now| && now[k].act.Collect? && now[k].act.task == task
    }

    lemma NoVisits(past: seq<P.Visit>, roots: seq<Message>, scanned: bool, answers: string -> seq<Page>)
      ensures NewVisits(past, past, roots, scanned, answers)
    {
    }

    /** The rounds of the first n tasks, each of an active one and on its own row. */
    ghost predicate Toured(past: seq<P.Visit>, now: seq<P.Visit>, was: map<string, Row>, n: nat, roots: seq<Message>, scanned: bool, answers: string -> seq<Page>)
      reads this`order
    {
      && NewVisits(past, now, roots, scanned, answers)
      && (forall k :: |past| <= k < |now| ==> OwnRow(now[k], was))
      && (forall j :: 0 <= j < n && j < |order| && order[j] in was && Active(was[order[j]].phase) ==> VisitedIn(past, now, order[j]))
    }

    lemma TourBegins(past: seq<P.Visit>, was: map<string, Row>, roots: seq<Message>, scanned: bool, answers: string -> seq<Page>)
      ensures Toured(past, past, was, 0, roots, scanned, answers)
    {
    }

    lemma TourGoesOn(past: seq<P.Visit>, now: seq<P.Visit>, was: map<string, Row>, n: nat, rows: map<string, Row>, roots: seq<Message>, scanned: bool, answers: string -> seq<Page>)
      requires Toured(past, now, was, n, roots, scanned, answers) && n < |order|
      requires order[n] in was && order[n] in rows && rows[order[n]] == was[order[n]]
      ensures Active(was[order[n]].phase) ==>
                Toured(past, now + [P.Visit(rows, P.Collect(order[n], responder, roots, scanned, answers(order[n])))], was, n + 1, roots, scanned, answers)
      ensures !Active(was[order[n]].phase) ==> Toured(past, now, was, n + 1, roots, scanned, answers)
    {
      var v := P.Visit(rows, P.Collect(order[n], responder, roots, scanned, answers(order[n])));
      var more := now + [v];
      assert more[|now|] == v && forall k :: 0 <= k < |now| ==> more[k] == now[k];
      if Active(was[order[n]].phase) {
        forall j | 0 <= j < n + 1 && j < |order| && order[j] in was && Active(was[order[j]].phase) ensures VisitedIn(past, more, order[j]) {
          if j < n { MoreVisits(past, now, v, order[j]); }
        }
      }
    }

    lemma MoreVisits(past: seq<P.Visit>, now: seq<P.Visit>, v: P.Visit, task: string)
      requires VisitedIn(past, now, task)
      ensures VisitedIn(past, now + [v], task)
    {
      var k :| |past| <= k < |now| && now[k].act.Collect? && now[k].act.task == task;
      assert (now + [v])[k] == now[k];
    }

    lemma TourEnds(past: seq<P.Visit>, now: seq<P.Visit>, was: map<string, Row>, roots: seq<Message>, scanned: bool, answers: string -> seq<Page>)
      requires Toured(past, now, was, |order|, roots, scanned, answers) && forall t :: t in was ==> t in order
      ensures NewVisits(past, now, roots, scanned, answers) && forall k :: |past| <= k < |now| ==> OwnRow(now[k], was)
      ensures forall t :: t in was && Active(was[t].phase) ==> VisitedIn(past, now, t)
    {
    }

    lemma IsRootOf(task: string, row: Row, roots: seq<Message>)
      requires row.teams.dispatch.Some?
      ensures P.RootOf(responder, task, row, roots) == Best(Results(Lens(responder, None, task, row.teams.dispatch.value), roots))
    {
    }

    /** The round of one task, if it is dispatched. */
    method CollectOne(task: string, best: map<string, Candidate>, scanned: bool, pages: seq<Page>, ghost roots: seq<Message>) returns (done: bool)
      requires Valid() && task in rows
      requires Active(rows[task].phase) && rows[task].teams.dispatch.Some? ==>
                 Lookup(best, task) == Best(Results(Lens(responder, None, task, rows[task].teams.dispatch.value), roots))
      modifies this`rows, this`trace, this`offices, this`acts, this`visits
      ensures Valid() && old(trace) <= trace && old(offices) <= offices
      ensures rows == old(rows)[task := Gathered(task, old(rows)[task], roots, scanned, pages)]
      ensures visits == if Active(old(rows)[task].phase) then old(visits) + [P.Visit(old(rows), P.Collect(task, responder, roots, scanned, pages))] else old(visits)
    {
      hide *;
      GatheredIs(task, rows[task], roots, scanned, pages);
      if !Active(rows[task].phase) { return false; }
      ActiveIsDispatched(task);
      IsRootOf(task, rows[task], roots);
      done := Collect(task, Lookup(best, task), scanned, pages, roots);
    }

    /** The earliest result of each dispatched task among the roots. */
    method SearchRoots(roots: seq<Message>) returns (best: map<string, Candidate>)
      requires Valid()
      ensures forall t :: t in rows && Active(rows[t].phase) ==>
                rows[t].teams.dispatch.Some? && Lookup(best, t) == Best(Results(Lens(responder, None, t, rows[t].teams.dispatch.value), roots))
    {
      hide *;
      forall t | t in rows && Active(rows[t].phase) ensures Takes(rows, None, t) && rows[t].teams.dispatch.Some? {
        TakesRoots(t);
        ActiveIsDispatched(t);
      }
      best := Candidates(rows, responder, roots, None);
    }

    /** The first n tasks in order had their round, and the others have not. */
    ghost predicate GatheredTo(was: map<string, Row>, now: map<string, Row>, n: nat, roots: seq<Message>, scanned: bool, answers: string -> seq<Page>)
      reads this`order
    {
      && now.Keys == was.Keys
      && forall j :: 0 <= j < |order| ==>
           && order[j] in was
           && now[order[j]] == if j < n then Gathered(order[j], was[order[j]], roots, scanned, answers(order[j])) else was[order[j]]
    }

    lemma NoneGathered(was: map<string, Row>, roots: seq<Message>, scanned: bool, answers: string -> seq<Page>)
      requires Lists(order, was)
      ensures GatheredTo(was, was, 0, roots, scanned, answers)
    {
    }

    lemma NextGathered(was: map<string, Row>, now: map<string, Row>, n: nat, roots: seq<Message>, scanned: bool, answers: string -> seq<Page>)
      requires GatheredTo(was, now, n, roots, scanned, answers) && Lists(order, was) && n < |order|
      ensures order[n] in was && order[n] in now && now[order[n]] == was[order[n]]
      ensures GatheredTo(was, now[order[n] := Gathered(order[n], now[order[n]], roots, scanned, answers(order[n]))], n + 1, roots, scanned, answers)
    {
      hide Gathered;
    }

    lemma AllGathered(was: map<string, Row>, now: map<string, Row>, roots: seq<Message>, scanned: bool, answers: string -> seq<Page>)
      requires GatheredTo(was, now, |order|, roots, scanned, answers) && Lists(order, was)
      ensures now.Keys == was.Keys && forall t :: t in now ==> now[t] == Gathered(t, was[t], roots, scanned, answers(t))
    {
      hide Gathered;
      forall t | t in now ensures now[t] == Gathered(t, was[t], roots, scanned, answers(t)) {
        var i :| 0 <= i < |order| && order[i] == t;
      }
    }

    /** One round of collecting for every dispatched task: the roots are searched once, and
        each task's thread goes on from its own cursor. */
    method CollectAll(roots: seq<Message>, scanned: bool, answers: string -> seq<Page>) returns (results: nat)
      requires Valid()
      modifies this`rows, this`trace, this`offices, this`acts, this`visits
      ensures Valid() && old(trace) <= trace && old(offices) <= offices
      ensures rows.Keys == old(rows.Keys)
      ensures forall t :: t in rows ==> rows[t] == Gathered(t, old(rows)[t], roots, scanned, answers(t))
      ensures NewVisits(old(visits), visits, roots, scanned, answers)
      ensures forall k :: |old(visits)| <= k < |visits| ==> OwnRow(visits[k], old(rows))
      ensures forall t :: t in old(rows) && Active(old(rows)[t].phase) ==> VisitedIn(old(visits), visits, t)
    {
      hide *;
      ListsNow();
      Listed();
      ghost var was, past := rows, visits;
      var best := SearchRoots(roots);
      results := 0;
      TourBegins(visits, rows, roots, scanned, answers);
      NoneGathered(rows, roots, scanned, answers);
      for i := 0 to |order|
        invariant Valid() && old(trace) <= trace && old(offices) <= offices
        invariant GatheredTo(was, rows, i, roots, scanned, answers)
        invariant Toured(past, visits, was, i, roots, scanned, answers)
      {
        var task := order[i];
        NextGathered(was, rows, i, roots, scanned, answers);
        TourGoesOn(past, visits, was, i, rows, roots, scanned, answers);
        var done := CollectOne(task, best, scanned, answers(task), roots);
        if done { results := results + 1; }
      }
      AllGathered(was, rows, roots, scanned, answers);
      TourEnds(past, visits, was, roots, scanned, answers);
    }

    /** When the operator's choice is possible. */
    predicate Resolvable(row: Row, choice: Choice) {
      match choice
      case Abandon => row.phase == Queued || Active(row.phase)
      case Repost => P.Unresolved(row)
      case Adopt(id, seen) =>
        && P.Unresolved(row) && seen.Some? && seen.value.id == Some(id)
        && row.teams.dispatch.Some? && IsPost(account, seen.value, row.teams.dispatch.value)
    }

    static function ResolvedRow(row: Row, choice: Choice, now: int): Row {
      match choice
      case Adopt(id, _) => P.Linked(row, id, now)
      case Repost => row.(phase := Queued)
      case Abandon => row.(phase := Rejected)
    }

    static function ActOf(task: string, choice: Choice, now: int): P.Act {
      match choice
      case Adopt(id, _) => P.Adopt(task, id, now)
      case Repost => P.Repost(task)
      case Abandon => P.Abandon(task)
    }

    static ghost function AfterChoice(office: P.Office, task: string, choice: Choice, now: int): P.Office
      requires task in office.rows
    {
      office.(rows := office.rows[task := ResolvedRow(office.rows[task], choice, now)],
              reposts := if choice.Repost? then office.reposts[task := P.Reposts(office, task) + 1] else office.reposts)
    }

    lemma ChoiceOk(office: P.Office, task: string, choice: Choice, now: int)
      requires office.attempt.None? && task in office.rows && Resolvable(office.rows[task], choice)
      ensures P.ActOk(maxOutstanding, office, ActOf(task, choice, now), AfterChoice(office, task, choice, now))
      ensures !ActOf(task, choice, now).Channel? && AfterChoice(office, task, choice, now).attempt.None?
      ensures AfterChoice(office, task, choice, now).rows == office.rows[task := ResolvedRow(office.rows[task], choice, now)]
    {
    }

    lemma ChoiceIsQuiet(office: P.Office, row: Row, task: string, choice: Choice, now: int)
      requires Resolvable(row, choice)
      ensures (row.phase == Queued ==> !Active(ResolvedRow(row, choice, now).phase)) && RoundOf(office, ActOf(task, choice, now)) == []
    {
    }

    /** How often the operator sent a task back to the queue. */
    ghost function Reposted(task: string): nat
      reads this`reposts
    {
      if task in reposts then reposts[task] else 0
    }

    lemma CountChoice(office: P.Office, task: string, choice: Choice, now: int)
      requires task in office.rows && office.reposts == reposts
      ensures var after := AfterChoice(office, task, choice, now).reposts;
              forall t :: (if t in after then after[t] else 0) == Reposted(t) + (if choice.Repost? && t == task then 1 else 0)
    {
    }

    lemma RepostedIs()
      ensures forall t :: Reposted(t) == if t in reposts then reposts[t] else 0
    {
    }

    /** The operator's decision; refused unless the task is in a phase that allows it. */
    method Resolve(task: string, choice: Choice, now: int) returns (ok: bool)
      requires Valid()
      modifies this`rows, this`reposts, this`trace, this`offices, this`acts
      ensures Valid() && old(trace) <= trace && old(offices) <= offices
      ensures ok <==> task in old(rows) && Resolvable(old(rows)[task], choice)
      ensures rows == if ok then old(rows)[task := ResolvedRow(old(rows)[task], choice, now)] else old(rows)
      ensures forall t :: Reposted(t) == old(Reposted(t)) + (if ok && choice.Repost? && t == task then 1 else 0)
    {
      hide *;
      if task !in rows || !Resolvable(rows[task], choice) { return false; }
      ghost var office := Open();
      ChoiceOk(office, task, choice, now);
      ChoiceIsQuiet(office, rows[task], task, choice, now);
      SetRow(task, ResolvedRow(rows[task], choice, now), office, ActOf(task, choice, now), AfterChoice(office, task, choice, now));
      CountChoice(office, task, choice, now);
      reposts := AfterChoice(office, task, choice, now).reposts;
      RepostedIs();
      Close(AfterChoice(office, task, choice, now));
      return true;
    }

    // ---------------------------------------------------------- posting after a drain

    /** No unused dispatch identity but this one comes into use. */
    static ghost predicate StaysFresh(rows: map<string, Row>, rows': map<string, Row>, used: Option<nat>) {
      forall d: nat {:trigger P.Fresh(rows', d)} :: P.Fresh(rows, d) && used != Some(d) ==> P.Fresh(rows', d)
    }

    lemma FreshOn(a: map<string, Row>, b: map<string, Row>, c: map<string, Row>, used: Option<nat>, more: Option<nat>)
      requires StaysFresh(a, b, used) && StaysFresh(b, c, more) && (used == None || more == None || used == more)
      ensures StaysFresh(a, c, if used.Some? then used else more)
    {
      hide P.Fresh;
      forall d: nat {:trigger P.Fresh(c, d)} | P.Fresh(a, d) && (if used.Some? then used else more) != Some(d) ensures P.Fresh(c, d) {
        assert P.Fresh(b, d);
      }
    }

    lemma FreshSelf(rows: map<string, Row>)
      ensures StaysFresh(rows, rows, None)
    {
    }

    lemma UseFresh(rows: map<string, Row>, rows': map<string, Row>, used: Option<nat>, token: nat)
      requires StaysFresh(rows, rows', used) && P.Fresh(rows, token) && used != Some(token)
      ensures P.Fresh(rows', token)
    {
    }

    /** Rows that keep their dispatch identities, and new ones without any. */
    lemma SameDispatch(rows: map<string, Row>, rows': map<string, Row>)
      requires forall t :: t in rows' ==> rows'[t].teams.dispatch == if t in rows then rows[t].teams.dispatch else None
      ensures StaysFresh(rows, rows', None)
    {
    }

    lemma {:induction false} DeliverFresh(rows: map<string, Row>, events: seq<Event>)
      ensures StaysFresh(rows, DeliverAll(config, agent, rows, events), None)
    {
      hide Deliver, StaysFresh;
      if events == [] {
        FreshSelf(rows);
      } else {
        var past := DeliverAll(config, agent, rows, events[..|events| - 1]);
        DeliverFresh(rows, events[..|events| - 1]);
        DeliverSide(config, agent, past, events[|events| - 1]);
        SameDispatch(past, Deliver(config, agent, past, events[|events| - 1]));
        FreshOn(rows, past, Deliver(config, agent, past, events[|events| - 1]), None, None);
      }
    }

    lemma RecoverFresh(start: map<string, Row>, after: map<string, Row>, sent: seq<Sent>)
      requires after.Keys == start.Keys
      requires forall t :: t in after ==> after[t] == if start[t].pending.Intent? then Recovered(start[t], sent) else start[t]
      ensures StaysFresh(start, after, None)
    {
      hide HasKey, SlotOf;
      SameDispatch(start, after);
    }

    lemma ReconcileFresh(start: map<string, Row>, after: map<string, Row>, roots: seq<Message>, now: int)
      requires after.Keys == start.Keys
      requires forall t :: t in after ==> after[t] == P.Reconciled(start[t], FoundFor(start[t], roots), now)
      ensures StaysFresh(start, after, None)
    {
      hide FoundFor;
      SameDispatch(start, after);
    }

    lemma CollectFresh(start: map<string, Row>, after: map<string, Row>, roots: seq<Message>, scanned: bool, answers: string -> seq<Page>)
      requires after.Keys == start.Keys
      requires forall t :: t in after ==> after[t] == Gathered(t, start[t], roots, scanned, answers(t))
      ensures StaysFresh(start, after, None)
    {
      SameDispatch(start, after);
    }

    lemma ReportFresh(start: map<string, Row>, after: map<string, Row>)
      requires after.Keys == start.Keys && forall t :: t in after ==> after[t].teams == start[t].teams
      ensures StaysFresh(start, after, None)
    {
      SameDispatch(start, after);
    }

    lemma PostFresh(start: map<string, Row>, after: map<string, Row>, task: string, token: nat, answer: Option<P.Outcome>, now: int)
      requires task in start && after == start[task := if answer.None? then P.Intended(start[task], token) else P.Answered(P.Intended(start[task], token), answer.value, now)]
      ensures StaysFresh(start, after, Some(token))
    {
    }

    /** No event up to `head` ended the task. */
    ghost predicate StillOpen(task: string, head: nat)
      reads this`log
    {
      OpenAt(log.events, task, head)
    }

    lemma QueuedIsOpen(task: string)
      requires Valid() && task in rows && rows[task].phase == Queued
      ensures StillOpen(task, cursor)
    {
      hide GoodRun, Fold, Client.Client.Valid, Lists, P.IsHistory, P.Visits;
      Parts();
      QueuedIsNotCancelled(config, agent, trace, |trace| - 1, task, cursor);
    }

    /** The end of a Teams round: apply everything visible, then post at most the oldest
        queued task. A task is posted only when every event up to the HEAD just read is
        applied, none of them ended it, and fewer than the maximum are outstanding. */
    method PostOldest(heads: seq<nat>, token: nat, emitted: bool, answer: Option<P.Outcome>, now: int)
        returns (tried: Option<string>, ghost rowsThen: map<string, Row>, ghost drained: Drained)
      requires Valid() && pc == Up && |heads| > 0
      requires P.Fresh(rows, token) && Possible(emitted, answer)
      modifies this`rows, this`order, this`cursor, this`log, this`clock, this`visible, this`pc, this`trace, this`offices, this`acts
      ensures Valid() && old(trace) <= trace && old(offices) <= offices && old(log.events) <= log.events
      ensures old(cursor) <= cursor <= |log.events| && pc == (if tried.Some? && answer.None? then Down else Up)
      ensures rowsThen == DeliverAll(config, agent, old(rows), log.events[old(cursor)..cursor])
      ensures tried.None? ==> rows == rowsThen
      ensures drained.UpToDate? && |P.ActiveTasks(rowsThen)| < maxOutstanding && (exists t :: t in rowsThen && rowsThen[t].phase == Queued) ==> tried.Some?
      ensures drained.UpToDate? ==> cursor == visible
      ensures drained.Regressed? <==> visible < cursor
      ensures tried.Some? ==>
                && cursor == visible && StillOpen(tried.value, cursor)
                && tried.value in rowsThen && rowsThen[tried.value].phase == Queued
                && |P.ActiveTasks(rowsThen)| < maxOutstanding
                && (exists i :: 0 <= i < |order| && order[i] == tried.value
                      && forall j :: 0 <= j < i ==> order[j] in rowsThen && rowsThen[order[j]].phase != Queued)
                && rows.Keys == rowsThen.Keys && forall t :: t in rows && t != tried.value ==> rows[t] == rowsThen[t]
      ensures tried.Some? ==> PostedIn(trace, |old(trace)|, tried.value)
      ensures StaysFresh(old(rows), rows, Some(token))
    {
      hide *;
      ghost var start := cursor;
      var reached := Drain(heads);
      rowsThen, drained := rows, reached;
      DeliverFresh(old(rows), log.events[start..cursor]);
      UseFresh(old(rows), rows, None, token);
      FreshButOne(old(rows), rows, token);
      if reached != UpToDate || |P.ActiveTasks(rows)| >= maxOutstanding { return None, rowsThen, drained; }
      Listed();
      for i := 0 to |order|
        invariant rows == rowsThen && Valid() && pc == Up && old(trace) <= trace && old(offices) <= offices
        invariant forall j :: 0 <= j < i ==> rows[order[j]].phase != Queued
      {
        if rows[order[i]].phase == Queued {
          QueuedIsOpen(order[i]);
          ghost var before := trace;
          var posted := Post(order[i], token, emitted, answer, now);
          PostedOn(trace, trace, |before|, |old(trace)|, order[i]);
          PostFresh(rowsThen, rows, order[i], token, answer, now);
          FreshOn(old(rows), rowsThen, rows, None, Some(token));
          return Some(order[i]), rowsThen, drained;
        }
      }
      return None, rowsThen, drained;
    }

    lemma FreshButOne(rows: map<string, Row>, rows': map<string, Row>, token: nat)
      requires StaysFresh(rows, rows', None)
      ensures StaysFresh(rows, rows', Some(token))
    {
      hide P.Fresh;
    }

    // ---------------------------------------------------------- one round

    /** Recovery comes first, so that no intake can pass the slot of a status that a crash
        left unrecorded; then the outbox is delivered and the feed applied. */
    method Begin(heads: seq<nat>, budget: nat) returns (ok: bool)
      requires Valid() && |heads| > 0
      modifies this`rows, this`order, this`cursor, this`log, this`clock, this`visible, this`pc, this`trace, this`offices, this`acts
      modifies client`outbox, client`inbox, client`safe, client`trace
      ensures Valid() && old(trace) <= trace && old(offices) <= offices && old(log.events) <= log.events
      ensures pc == (if ok then Up else Down) && old(cursor) <= cursor
      ensures ok ==> cursor <= visible
      ensures !ok ==> visible < cursor
      ensures StaysFresh(old(rows), rows, None)
    {
      hide Valid, Recovered, Deliver, DeliverAll, P.Fresh, StaysFresh;
      ghost var start := rows;
      Fall();
      RecoverPending();
      ghost var recovered, from := rows, cursor;
      var done := Sync(budget);
      var drained := Drain(heads);
      ok := drained != Regressed;
      if !ok { Fall(); }
      RecoverFresh(start, recovered, client.queued);
      DeliverFresh(recovered, log.events[from..cursor]);
      FreshOn(start, recovered, rows, None, None);
    }

    static function Scanned(scan: Option<seq<Message>>): seq<Message> {
      if scan.Some? then scan.value else []
    }

    /** The Teams side of a round: resolve what is unresolved, collect results, and post at
        most one task, after another drain. */
    method Teams(heads: seq<nat>, scan: Option<seq<Message>>, answers: string -> seq<Page>,
                 token: nat, emitted: bool, answer: Option<P.Outcome>, now: int)
        returns (tried: Option<string>)
      requires Valid() && pc == Up && |heads| > 0
      requires P.Fresh(rows, token) && Possible(emitted, answer)
      modifies this`rows, this`order, this`cursor, this`log, this`clock, this`visible, this`pc, this`trace, this`offices, this`acts, this`visits
      ensures Valid() && old(trace) <= trace && old(offices) <= offices && old(log.events) <= log.events
      ensures NewVisits(old(visits), visits, Scanned(scan), scan.Some?, answers)
      ensures tried.Some? ==> PostedIn(trace, |old(trace)|, tried.value)
      ensures old(cursor) <= cursor && pc == (if tried.Some? && answer.None? then Down else Up)
      ensures tried.Some? ==> cursor == visible && StillOpen(tried.value, visible)
      ensures StaysFresh(old(rows), rows, Some(token))
    {
      hide Valid, Deliver, DeliverAll, P.Reconciled, Gathered, StillOpen, P.ActiveTasks, StaysFresh, P.Fresh, NewVisits, OwnRow, PostedIn;
      ghost var start := rows;
      FreshSelf(start);
      if scan.Some? {
        Reconcile(scan.value, now);
        ReconcileFresh(start, rows, scan.value, now);
      }
      ghost var middle := rows;
      var results := CollectAll(Scanned(scan), scan.Some?, answers);
      CollectFresh(middle, rows, Scanned(scan), scan.Some?, answers);
      FreshOn(start, middle, rows, None, None);
      ghost var collected := rows;
      UseFresh(start, rows, None, token);
      ghost var rowsThen, drained, gathered := rows, UpToDate, trace;
      tried, rowsThen, drained := PostOldest(heads, token, emitted, answer, now);
      FreshOn(start, collected, rows, None, Some(token));
      if tried.Some? { PostedOn(trace, trace, |gathered|, |old(trace)|, tried.value); }
    }

    /** The end of a round: reports, delivery of the outbox, and a last drain. */
    method End(turn: Turn, timeout: int, say: (string, Status) -> string) returns (reported: nat, ended: bool)
      requires Valid() && pc == Up && Measures() && GoodTurn(turn) && forall t, s :: IsText(Str(say(t, s)))
      modifies this`rows, this`order, this`cursor, this`log, this`clock, this`visible, this`pc, this`trace, this`offices, this`acts
      modifies client`outbox, client`sent, client`next, client`queued, client`inbox, client`safe, client`trace
      ensures Valid() && old(trace) <= trace && old(offices) <= offices && old(log.events) <= log.events
      ensures old(cursor) <= cursor
      ensures ended ==> pc == Up && cursor <= visible
      ensures !ended ==> pc == Down && (|client.queued| == config.maxEvents || visible < cursor)
      ensures StaysFresh(old(rows), rows, None)
    {
      hide *;
      TurnParts(turn);
      ghost var served := rows;
      reported, ended := Report(turn.now, timeout, say);
      ReportFresh(served, rows);
      if !ended { return; }
      var done := Sync(turn.budget);
      ghost var told, from := rows, cursor;
      var drained := Drain(turn.third);
      DeliverFresh(told, log.events[from..cursor]);
      FreshOn(served, told, rows, None, None);
      ended := drained != Regressed;
      if !ended { Fall(); }
    }

    /** A whole round, in which the journal may grow before every page that is read. Whatever
        Teams answers and wherever the process dies, both traces go on, so everything proved
        of runs holds of the bridge; a round that ends has reported and applied up to a HEAD
        it read. */
    method Once(turn: Turn, timeout: int, say: (string, Status) -> string)
        returns (tried: Option<string>, reported: nat, ended: bool)
      requires Valid() && Measures() && forall t, s :: IsText(Str(say(t, s)))
      requires GoodTurn(turn) && P.Fresh(rows, turn.token)
      modifies this`rows, this`order, this`cursor, this`log, this`clock, this`visible, this`pc, this`trace, this`offices, this`acts, this`visits
      modifies client`outbox, client`sent, client`next, client`queued, client`inbox, client`safe, client`trace
      ensures Valid() && old(trace) <= trace && old(offices) <= offices && old(log.events) <= log.events
      ensures old(cursor) <= cursor
      ensures PostsOpen(trace) && (tried.Some? ==> PostedIn(trace, |old(trace)|, tried.value))
      ensures NewVisits(old(visits), visits, Scanned(turn.scan), turn.scan.Some?, turn.answers)
      ensures ended ==> pc == Up && cursor <= visible
      ensures !ended ==>
                && pc == Down
                && ((tried.Some? && turn.answer.None?) || |client.queued| == config.maxEvents || visible < cursor)
      ensures StaysFresh(old(rows), rows, Some(turn.token))
    {
      hide *;
      TurnParts(turn);
      ghost var start := rows;
      tried, reported, ended := None, 0, false;
      NoVisits(visits, Scanned(turn.scan), turn.scan.Some?, turn.answers);
      var ok := Begin(turn.first, turn.budget);
      FreshButOne(start, rows, turn.token);
      Openly();
      if !ok { return; }
      ghost var begun, before := rows, trace;
      UseFresh(start, rows, None, turn.token);
      tried := Teams(turn.second, turn.scan, turn.answers, turn.token, turn.emitted, turn.answer, turn.now);
      FreshOn(start, begun, rows, None, Some(turn.token));
      ghost var gone := trace;
      if tried.Some? { PostedOn(gone, gone, |before|, |old(trace)|, tried.value); }
      Openly();
      if tried.Some? && turn.answer.None? { return; }
      ghost var served := rows;
      reported, ended := End(turn, timeout, say);
      FreshOn(start, served, rows, Some(turn.token), None);
      if tried.Some? { PostedOn(gone, trace, |old(trace)|, |old(trace)|, tried.value); }
      Openly();
    }

    /** Everything taken on is allowed, and every row was created as the policy says. */
    lemma ByPolicy()
      requires Valid()
      ensures Policy.OnlyAllowed(config, agent, Now())
      ensures forall n {:trigger trace[n]} :: 0 < n < |trace| ==> Policy.NewRowsFollow(config, agent, trace[n - 1], trace[n])
    {
      hide *;
      Parts();
      RunOf();
      Policy.RunTakesOn(config, agent, trace, |trace| - 1);
      forall n {:trigger trace[n]} | 0 < n < |trace| ensures Policy.NewRowsFollow(config, agent, trace[n - 1], trace[n]) {
        Policy.RunTakesOn(config, agent, trace, n);
      }
    }

    lemma RunOf()
      requires GoodRun(config, agent, trace)
      ensures IsRun(config, agent, trace)
    {
    }

    lemma Openly()
      requires Valid()
      ensures PostsOpen(trace)
    {
    }

    static predicate GoodTurn(turn: Turn) {
      |turn.first| > 0 && |turn.second| > 0 && |turn.third| > 0 && Possible(turn.emitted, turn.answer)
    }

    lemma TurnParts(turn: Turn)
      requires GoodTurn(turn)
      ensures |turn.first| > 0 && |turn.second| > 0 && |turn.third| > 0 && Possible(turn.emitted, turn.answer)
    {
    }

    // ---------------------------------------------------------- for ever

    /** A power loss at the inbox directory. */
    method LosePower(names: set<nat>)
      requires Valid()
      modifies client`inbox, client`safe, client`trace, this`trace
      ensures Valid() && old(trace) <= trace
      ensures client.safe == old(client.safe) + names * old(client.inbox.Keys) && client.inbox.Keys == client.safe
    {
      hide *;
      Parts();
      ClientRun();
      Look();
      ghost var before := Now();
      ghost var k := |client.trace|;
      client.LosePower(names);
      ClientRun();
      DesksRun(config, agent, trace, before, client.trace, k);
      Look();
      Swap(before, client.View());
      trace := trace + Lifted(before, client.trace[k..]);
      Whole();
    }

    ghost function Dispatches(): P.Office
      requires Valid()
      reads this, client
    {
      offices[|offices| - 1]
    }

    lemma Bounds()
      requires Valid()
      ensures forall i :: 0 <= i < |offices| ==> |P.ActiveTasks(offices[i].rows)| <= maxOutstanding
      ensures |P.ActiveTasks(rows)| <= maxOutstanding
      ensures forall t :: t in rows && rows[t].teams.dispatch.Some? ==>
                P.Total(Dispatches(), t, rows[t].teams.dispatch.value) <= 1 + Reposted(t)
    {
      hide GoodRun, Client.Client.Valid, Lists, P.ActiveTasks, P.Total, P.DistinctDispatch, P.PostsKnown, P.IsHistory, P.OfficeRun, P.Visits;
      P.RunHasHistory(maxOutstanding, offices);
      P.HistoryLength(maxOutstanding, offices, acts);
      forall i | 0 <= i < |offices| ensures |P.ActiveTasks(offices[i].rows)| <= maxOutstanding { P.OfficeRunInv(maxOutstanding, offices, i); }
      OfficeFacts(offices[|offices| - 1]);
      forall t | t in rows && rows[t].teams.dispatch.Some?
        ensures P.Total(Dispatches(), t, rows[t].teams.dispatch.value) <= 1 + Reposted(t)
      {
        assert P.WithinBudget(offices[|offices| - 1], t);
      }
    }

    /** How often the operator asks for a repost of a task in these rounds. */
    static function Asked(turns: seq<Turn>, task: string): nat {
      if turns == [] then 0
      else
        var choice := turns[|turns| - 1].choice;
        Asked(turns[..|turns| - 1], task) + (if choice.Some? && choice.value == (task, Repost) then 1 else 0)
    }

    lemma AskedOne(turns: seq<Turn>, i: nat, task: string)
      requires i < |turns|
      ensures var choice := turns[i].choice;
              Asked(turns[..i + 1], task) == Asked(turns[..i], task) + (if choice.Some? && choice.value == (task, Repost) then 1 else 0)
      ensures Asked([], task) == 0
    {
      assert turns[..i + 1][..i] == turns[..i];
    }

    /** Rounds for ever, with power losses, operators and other authors between and within
        them. In the whole run, every step that posts a task is made when everything up to
        the HEAD just read is applied and none of it ended the task; never are
        more tasks outstanding than configured; and each task has at most one message, made
        or still possible, and one more for each repost that the operator asked for. */
    method Serve(turns: seq<Turn>, timeout: int, say: (string, Status) -> string)
      requires Valid() && Measures() && forall t, s :: IsText(Str(say(t, s)))
      requires forall i :: 0 <= i < |turns| ==> GoodTurn(turns[i]) && P.Fresh(rows, turns[i].token)
      requires forall i, j :: 0 <= i < j < |turns| ==> turns[i].token != turns[j].token
      modifies this`rows, this`order, this`cursor, this`log, this`clock, this`visible, this`pc, this`reposts, this`trace, this`offices, this`acts, this`visits
      modifies client`outbox, client`sent, client`next, client`queued, client`inbox, client`safe, client`trace
      ensures Valid() && old(trace) <= trace && old(offices) <= offices && old(log.events) <= log.events
      ensures old(cursor) <= cursor
      ensures PostsOpen(trace)
      ensures AllFromTurns(old(visits), visits, turns, |turns|)
      ensures forall i :: 0 <= i < |offices| ==> |P.ActiveTasks(offices[i].rows)| <= maxOutstanding
      ensures Policy.OnlyAllowed(config, agent, Now())
      ensures forall n {:trigger trace[n]} :: 0 < n < |trace| ==> Policy.NewRowsFollow(config, agent, trace[n - 1], trace[n])
      ensures forall t :: Reposted(t) <= old(Reposted(t)) + Asked(turns, t)
      ensures forall t :: t in rows && rows[t].teams.dispatch.Some? ==>
                P.Total(Dispatches(), t, rows[t].teams.dispatch.value) <= 1 + old(Reposted(t)) + Asked(turns, t)
    {
      hide *;
      NoneFromTurns(visits, turns);
      assert turns[..0] == [];
      if |turns| > 0 { forall t ensures Asked(turns[..0], t) == 0 { AskedOne(turns, 0, t); } }
      for i := 0 to |turns|
        invariant Valid() && old(trace) <= trace && old(offices) <= offices && old(log.events) <= log.events
        invariant old(cursor) <= cursor && Measures()
        invariant AllFromTurns(old(visits), visits, turns, i)
        invariant forall j :: i <= j < |turns| ==> P.Fresh(rows, turns[j].token)
        invariant forall t :: Reposted(t) <= old(Reposted(t)) + Asked(turns[..i], t)
      {
        var turn := turns[i];
        ghost var start, visited := rows, visits;
        if turn.loss.Some? { LosePower(turn.loss.value); }
        FreshSelf(rows);
        if turn.choice.Some? {
          var (task, choice) := turn.choice.value;
          var ok := Resolve(task, choice, turn.now);
          ResolveFresh(start, rows, task, choice, turn.now, ok);
        }
        forall t ensures Asked(turns[..i + 1], t) == Asked(turns[..i], t) + (if turn.choice.Some? && turn.choice.value == (t, Repost) then 1 else 0) {
          AskedOne(turns, i, t);
        }
        forall j | i <= j < |turns| ensures P.Fresh(rows, turns[j].token) { UseFresh(start, rows, None, turns[j].token); }
        ghost var resolved := rows;
        var tried, reported, ended := Once(turn, timeout, say);
        forall j | i + 1 <= j < |turns| ensures P.Fresh(rows, turns[j].token) { UseFresh(resolved, rows, Some(turn.token), turns[j].token); }
        MoreFromTurns(old(visits), visited, visits, turns, i);
      }
      assert turns[..|turns|] == turns;
      Openly();
      ByPolicy();
      Bounds();
    }

    /** A round over the roots and pages of this turn. */
    ghost predicate VisitOf(v: P.Visit, turn: Turn) {
      v.act.Collect? && v.act == P.Collect(v.act.task, responder, Scanned(turn.scan), turn.scan.Some?, turn.answers(v.act.task))
    }

    ghost predicate FromTurns(v: P.Visit, turns: seq<Turn>, n: nat) {
      exists i {:trigger turns[i]} :: 0 <= i < n && i < |turns| && VisitOf(v, turns[i])
    }

    /** All rounds after these are over the roots and pages of the first n turns. */
    ghost predicate AllFromTurns(past: seq<P.Visit>, now: seq<P.Visit>, turns: seq<Turn>, n: nat) {
      past <= now && forall k {:trigger now[k]} :: |past| <= k < |now| ==> FromTurns(now[k], turns, n)
    }

    lemma NoneFromTurns(past: seq<P.Visit>, turns: seq<Turn>)
      ensures AllFromTurns(past, past, turns, 0)
    {
    }

    lemma MoreFromTurns(past: seq<P.Visit>, prior: seq<P.Visit>, now: seq<P.Visit>, turns: seq<Turn>, i: nat)
      requires AllFromTurns(past, prior, turns, i)
      requires i < |turns| && NewVisits(prior, now, Scanned(turns[i].scan), turns[i].scan.Some?, turns[i].answers)
      ensures AllFromTurns(past, now, turns, i + 1)
    {
      hide FromTurns, NewVisits;
      VisitsAre(prior, now, turns, i);
      forall k {:trigger now[k]} | |past| <= k < |now| ensures FromTurns(now[k], turns, i + 1) {
        if k < |prior| { assert now[k] == prior[k] && FromTurns(prior[k], turns, i); }
        TurnsOn(now[k], turns, i);
      }
    }

    lemma VisitsAre(past: seq<P.Visit>, now: seq<P.Visit>, turns: seq<Turn>, i: nat)
      requires i < |turns| && NewVisits(past, now, Scanned(turns[i].scan), turns[i].scan.Some?, turns[i].answers)
      ensures past <= now && forall k {:trigger now[k]} :: |past| <= k < |now| ==> FromTurns(now[k], turns, i + 1)
    {
      forall k {:trigger now[k]} | |past| <= k < |now| ensures FromTurns(now[k], turns, i + 1) {
        assert VisitOf(now[k], turns[i]);
      }
    }

    lemma TurnsOn(v: P.Visit, turns: seq<Turn>, n: nat)
      ensures FromTurns(v, turns, n) ==> FromTurns(v, turns, n + 1)
    {
      hide VisitOf;
    }

    lemma ResolveFresh(start: map<string, Row>, after: map<string, Row>, task: string, choice: Choice, now: int, ok: bool)
      requires ok ==> task in start
      requires after == if ok then start[task := ResolvedRow(start[task], choice, now)] else start
      ensures StaysFresh(start, after, None)
    {
      SameDispatch(start, after);
    }
  }
}

/** The assignment policy decides which tasks the bridge takes on: nothing is queued or
    posted that it refuses, and nothing is refused that it allows. */
module Policy {
  import opened Wrappers
  import opened Wire
  import opened Channel
  import opened Ledger
  import opened Outbox
  import opened Rows
  import opened System
  import opened Legality

  /** The event assigns the task to the bridge: accepted, and by a coordinator. */
  predicate AssignsTo(config: Config, agent: Agent, e: Event, task: string) {
    e.Accepted() && IsCoordinator(config, e.author) && Decode(e.message) == Some(Assign(task, agent.me))
  }

  /** What the assignment asks for. */
  function TextOf(e: Event): Json {
    if e.message.Obj? then Get(e.message.fields, "text") else Null
  }

  /** One of the first `upto` events assigns the task to the bridge, with a text that the
      policy allows. */
  ghost predicate IsAllowed(config: Config, agent: Agent, events: seq<Event>, upto: nat, task: string) {
    exists i {:trigger events[i]} :: 0 <= i < upto && i < |events|
      && AssignsTo(config, agent, events[i], task) && agent.policy(task, TextOf(events[i]))
  }

  lemma {:induction false} AllowedOn(config: Config, agent: Agent, events: seq<Event>, upto: nat, events': seq<Event>, upto': nat, task: string)
    requires IsAllowed(config, agent, events, upto, task) && events <= events' && upto <= upto'
    ensures IsAllowed(config, agent, events', upto', task)
  {
    hide AssignsTo, TextOf;
    var i :| 0 <= i < upto && i < |events| && AssignsTo(config, agent, events[i], task) && agent.policy(task, TextOf(events[i]));
    assert events'[i] == events[i];
  }

  /** Every task that the bridge took on is allowed by an assignment that it has applied. */
  ghost predicate OnlyAllowed(config: Config, agent: Agent, w: World) {
    forall t :: t in w.rows && TakenOn(w.rows[t]) ==> IsAllowed(config, agent, w.mail.log.events, w.cursor, t)
  }

  /** A row that is new belongs to an assignment that is applied in this very step, and the
      task is queued if the policy allows its text, and rejected if not. */
  ghost predicate NewRowsFollow(config: Config, agent: Agent, w: World, w': World) {
    forall t :: t in w'.rows && t !in w.rows ==>
      && w.cursor < |w.mail.log.events| && w'.cursor == w.cursor + 1
      && var e := w.mail.log.events[w.cursor];
         && AssignsTo(config, agent, e, t)
         && w'.rows[t].phase == (if agent.policy(t, TextOf(e)) then Queued else Rejected)
         && w'.rows[t].revision == e.n && w'.rows[t].teams == NO_TEAMS
  }

  /** What one event does to the rows that are there, and which row it adds. */
  lemma {:induction false} DeliverTakesOn(config: Config, agent: Agent, rows: map<string, Row>, e: Event, t: string)
    requires t in Deliver(config, agent, rows, e)
    ensures t in rows ==> (TakenOn(Deliver(config, agent, rows, e)[t]) ==> TakenOn(rows[t]))
    ensures t !in rows ==>
              && AssignsTo(config, agent, e, t)
              && Deliver(config, agent, rows, e)[t] == Row(if agent.policy(t, TextOf(e)) then Queued else Rejected, Assigned, e.n, Idle, NO_TEAMS)
  {
    MessageIsObject(e.message);
    hide Decode, RevisionIn;
  }

  lemma MessageIsObject(m: Json)
    ensures Decode(m).Some? ==> m.Obj?
  {
  }

  lemma {:induction false} MoveTakesOn(config: Config, agent: Agent, w: World, action: Action, w': World)
    requires OnlyAllowed(config, agent, w) && Moves(config, agent, w, action, w')
    ensures OnlyAllowed(config, agent, w') && NewRowsFollow(config, agent, w, w')
  {
    hide IsAllowed, DeskNext, KeyOf, StatusMessage, IsText, Deliver, AssignsTo, HasKey, SlotOf;
    JournalGrows(config, agent, w, action, w');
    forall t | t in w'.rows && TakenOn(w'.rows[t]) ensures IsAllowed(config, agent, w'.mail.log.events, w'.cursor, t) {
      if action.Ingest? { DeliverTakesOn(config, agent, w.rows, w.mail.log.events[w.cursor], t); }
      if t in w.rows {
        AllowedOn(config, agent, w.mail.log.events, w.cursor, w'.mail.log.events, w'.cursor, t);
      } else {
        assert IsAllowed(config, agent, w'.mail.log.events, w'.cursor, t) by { AllowedNow(config, agent, w.mail.log.events, w.cursor, t); }
      }
    }
    if action.Ingest? {
      forall t | t in w'.rows && t !in w.rows { DeliverTakesOn(config, agent, w.rows, w.mail.log.events[w.cursor], t); }
    }
  }

  lemma AllowedNow(config: Config, agent: Agent, events: seq<Event>, i: nat, task: string)
    requires i < |events| && AssignsTo(config, agent, events[i], task) && agent.policy(task, TextOf(events[i]))
    ensures IsAllowed(config, agent, events, i + 1, task)
  {
  }

  lemma JournalGrows(config: Config, agent: Agent, w: World, action: Action, w': World)
    requires Moves(config, agent, w, action, w')
    ensures w.mail.log.events <= w'.mail.log.events && w.cursor <= w'.cursor
  {
    hide DeskNext, KeyOf, StatusMessage, IsText, Deliver, Framed, Lawful, Effect, Request;
  }

  lemma {:induction false} RunTakesOn(config: Config, agent: Agent, run: seq<World>, i: nat)
    requires IsRun(config, agent, run) && i < |run|
    ensures OnlyAllowed(config, agent, run[i])
    ensures i > 0 ==> NewRowsFollow(config, agent, run[i - 1], run[i])
    decreases |run|
  {
    hide OnlyAllowed, NewRowsFollow, Moves;
    if |run| == 1 {
      assert OnlyAllowed(config, agent, run[0]) by { NothingTaken(config, agent, run[0]); }
    } else {
      RunTakesOn(config, agent, run[..|run| - 1], if i < |run| - 1 then i else |run| - 2);
      if i == |run| - 1 {
        var action: Action :| Moves(config, agent, run[|run| - 2], action, run[|run| - 1]);
        MoveTakesOn(config, agent, run[|run| - 2], action, run[|run| - 1]);
      }
    }
  }

  lemma NothingTaken(config: Config, agent: Agent, w: World)
    requires Start(w)
    ensures OnlyAllowed(config, agent, w)
  {
  }

  // ------------------------------------------------------------ main results

  /** In every reachable state: a task that waits for its post, is dispatched or ever was,
      was assigned to the bridge by a coordinator in an accepted event that the bridge has
      applied, with a text that the policy allows. */
  lemma {:induction false} TakenOnIsAllowed(config: Config, agent: Agent, run: seq<World>, i: nat, t: string)
    requires IsRun(config, agent, run) && i < |run| && t in run[i].rows
    requires run[i].rows[t].phase == Queued || Active(run[i].rows[t].phase) || run[i].rows[t].teams.dispatch.Some?
    ensures exists j {:trigger run[i].mail.log.events[j]} :: 0 <= j < run[i].cursor && j < |run[i].mail.log.events|
              && AssignsTo(config, agent, run[i].mail.log.events[j], t) && agent.policy(t, TextOf(run[i].mail.log.events[j]))
  {
    hide IsRun;
    RunTakesOn(config, agent, run, i);
  }

  /** In every run, a row appears only when the event that assigns its task to the bridge is
      applied, and it is queued exactly if the policy allows the text. */
  lemma {:induction false} CreatedByPolicy(config: Config, agent: Agent, run: seq<World>, i: nat, t: string)
    requires IsRun(config, agent, run) && 0 < i < |run| && t in run[i].rows && t !in run[i - 1].rows
    ensures var w := run[i - 1];
            && w.cursor < |w.mail.log.events| && run[i].cursor == w.cursor + 1
            && var e := w.mail.log.events[w.cursor];
               && AssignsTo(config, agent, e, t) && run[i].rows[t].phase in {Queued, Rejected}
               && (run[i].rows[t].phase == Queued <==> agent.policy(t, TextOf(e)))
  {
    hide IsRun;
    RunTakesOn(config, agent, run, i);
  }

  /** So a task that was assigned with a text that the policy refuses is never dispatched. */
  lemma {:induction false} RefusedIsNeverTaken(config: Config, agent: Agent, run: seq<World>, i: nat, j: nat, t: string)
    requires GoodAgent(config, agent) && IsRun(config, agent, run) && i < |run| && t in run[i].rows
    requires j < |run[i].mail.log.events| && AssignsTo(config, agent, run[i].mail.log.events[j], t)
    requires !agent.policy(t, TextOf(run[i].mail.log.events[j]))
    ensures !TakenOn(run[i].rows[t])
  {
    hide IsRun, SystemInv, AssignsTo, TextOf;
    if TakenOn(run[i].rows[t]) {
      TakenOnIsAllowed(config, agent, run, i, t);
      SystemRunInv(config, agent, run, i);
      var events := run[i].mail.log.events;
      var k: nat :| k < |events| && AssignsTo(config, agent, events[k], t) && agent.policy(t, TextOf(events[k]));
      AssignedOnce(config, agent, run[i], j, k, t);
    }
  }

  lemma {:induction false} AssignedOnce(config: Config, agent: Agent, w: World, j: nat, k: nat, t: string)
    requires SystemInv(config, agent, w) && j < |w.mail.log.events| && k < |w.mail.log.events|
    requires AssignsTo(config, agent, w.mail.log.events[j], t) && AssignsTo(config, agent, w.mail.log.events[k], t)
    ensures j == k
  {
    hide Decode, RowsOk, DeskInv, EventsOk, History, Carries;
    TaskNeverReused(config, w.mail.log.events, j, k, t);
  }
}

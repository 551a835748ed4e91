/** The whole group in one transition system: the sequencer, the bridge's outbox and
    inbox, any other authors, the HEAD the bridge can see, and the bridge process with
    its crashes, recovery, intake and reports. */
module System {
  import opened Wrappers
  import opened Wire
  import opened Channel
  import opened Ledger
  import opened Outbox
  import opened Rows

  /** Where the bridge process is: not recovered, ready, or in the middle of a report. */
  datatype Pc = Down | Up | Sending(task: string) | Recording(task: string, slot: nat)

  datatype World = World(mail: Mail, visible: nat, rows: map<string, Row>, cursor: nat, pc: Pc)

  datatype Action =
    | Transport(step: MailStep)            // file steps of the outbox, admissions, power loss
    | Show(k: nat)                         // the HEAD visible to the bridge
    | Crash                                // of the bridge, or an exception that ends its round
    | Recover(task: string)
    | Ready
    | Ingest
    | Plan(task: string, status: Status, text: string)
    | Send
    | Record
    | Dispatch(task: string, after: Row)   // anything the Teams side does

  ghost predicate Moves(config: Config, agent: Agent, w: World, action: Action, w': World) {
    match action
    case Transport(step) =>
      && !(step.Local? && step.step.Queue?)
      && MailNext(config, agent.me, w.mail, step, w'.mail)
      && w' == w.(mail := w'.mail)
    case Show(k) => k <= |w.mail.log.events| && w' == w.(visible := k)
    case Crash => w' == w.(pc := Down)
    case Recover(task) =>
      && w.pc == Down && task in w.rows && w.rows[task].pending.Intent?
      && w' == w.(rows := w.rows[task := Recovered(w.rows[task], w.mail.desk.sent)])
    case Ready =>
      w.pc == Down && (forall t :: t in w.rows ==> !w.rows[t].pending.Intent?) && w' == w.(pc := Up)
    case Ingest =>
      && w.pc == Up && w.cursor < w.visible <= |w.mail.log.events|
      && w' == w.(rows := Deliver(config, agent, w.rows, w.mail.log.events[w.cursor]), cursor := w.cursor + 1)
    case Plan(task, status, text) =>
      && w.pc == Up && task in w.rows && w.rows[task].pending == Idle
      && status in Transitions(w.rows[task].fsStatus) && status != Cancelled && IsText(Str(text))
      && var body := StatusMessage(task, w.rows[task].revision, status, text);
         w' == w.(rows := w.rows[task := w.rows[task].(pending := Intent(KeyOf(task, status, w.rows[task].revision, body), body))],
                  pc := Sending(task))
    case Send =>
      && w.pc.Sending? && w.pc.task in w.rows && w.rows[w.pc.task].pending.Intent?
      && var p := w.rows[w.pc.task].pending;
         && DeskNext(config, agent.me, w.mail.desk, Queue(Sent(p.key, p.body)), w'.mail.desk)
         && w' == w.(mail := w.mail.(desk := w'.mail.desk), pc := Recording(w.pc.task, |w.mail.desk.sent| + 1))
    case Record =>
      && w.pc.Recording? && w.pc.task in w.rows && w.rows[w.pc.task].pending.Intent?
      && var p := w.rows[w.pc.task].pending;
         w' == w.(rows := w.rows[w.pc.task := w.rows[w.pc.task].(pending := InFlight(p.key, p.body, w.pc.slot))], pc := Up)
    case Dispatch(task, after) =>
      && task in w.rows && TeamsChange(w.rows[task], after)
      && w' == w.(rows := w.rows[task := after])
  }

  /** The slot of a key that the client already holds. */
  function SlotOf(sent: seq<Sent>, key: Key): (slot: nat)
    requires HasKey(sent, key)
    ensures 1 <= slot <= |sent| && sent[slot - 1].key == key
  {
    if sent[|sent| - 1].key == key then |sent|
    else
      assert HasKey(sent[..|sent| - 1], key) by {
        var i :| 0 <= i < |sent| && sent[i].key == key;
        assert sent[..|sent| - 1][i].key == key;
      }
      SlotOf(sent[..|sent| - 1], key)
  }

  /** After a crash between queueing and recording, the client's key table knows the
      slot; an intent it never received is dropped, to be made again. */
  function Recovered(row: Row, sent: seq<Sent>): Row
    requires row.pending.Intent?
  {
    var p := row.pending;
    row.(pending := if HasKey(sent, p.key) then InFlight(p.key, p.body, SlotOf(sent, p.key)) else Idle)
  }

  ghost predicate Start(w: World) {
    w == World(Mail(EMPTY_DESK, EMPTY_LOG), 0, map[], 0, Down)
  }

  ghost predicate CanStep(config: Config, agent: Agent, w: World, w': World) {
    exists action: Action :: Moves(config, agent, w, action, w')
  }

  ghost predicate IsRun(config: Config, agent: Agent, run: seq<World>) {
    |run| > 0 &&
    if |run| == 1 then Start(run[0])
    else IsRun(config, agent, run[..|run| - 1]) && CanStep(config, agent, run[|run| - 2], run[|run| - 1])
  }

  /** The bridge is a member and not the coordinator. */
  ghost predicate GoodAgent(config: Config, agent: Agent) {
    IsMember(config, agent.me) && !IsCoordinator(config, agent.me)
  }
}

/** The bridge's task rows: what a feed event does to them, which status a row wants to
    report, and the message that reports it. */
module Rows {
  import opened Wrappers
  import opened Wire
  import opened Channel
  import opened Ledger
  import opened Outbox

  /** A task's dispatch phase; Withdrawn is the phase of a cancelled task. */
  datatype Phase = Queued | Posting | Ambiguous | Posted | Resulted | Rejected | Done | Withdrawn | Stuck

  /** Phases of a task that is dispatched, or may be, and has no result. */
  predicate Active(phase: Phase) {
    phase in {Posting, Ambiguous, Posted}
  }

  /** The pending status of a row: none, an intent recorded before queueing, or a status
      whose author slot is recorded. */
  datatype Pending =
    | Idle
    | Intent(key: Key, body: Json)
    | InFlight(key: Key, body: Json, slot: nat)

  /** A creation time in a form that orders; an unparsable one comes last. */
  datatype Stamp = At(micros: int) | Unknown

  /** The two outcomes a result header can name. */
  type Verdict = s: Status | s == Completed || s == Failed witness Completed

  datatype Candidate = Candidate(id: nat, created: Stamp, status: Verdict, text: string)

  /** The columns that only the Teams side writes. */
  datatype Teams = Teams(
    dispatch: Option<nat>,
    messageId: Option<nat>,
    postedAt: int,
    result: Option<Candidate>,
    replyCursor: Option<nat>,
    candidate: Option<Candidate>)

  const NO_TEAMS := Teams(None, None, 0, None, None, None)

  datatype Row = Row(phase: Phase, fsStatus: Status, revision: nat, pending: Pending, teams: Teams)

  /** The bridge's identity and its assignment policy. */
  datatype Agent = Agent(me: string, policy: (string, Json) -> bool)

  // ------------------------------------------------------------ intake

  function RevisionIn(body: Json): Option<int> {
    match Decode(body) case Some(Report(_, revision, _)) => Some(revision) case _ => None
  }

  /** The bridge's own event settles the row that waits for its slot. A rejection at
      the row's own revision can only repeat, so the row is stuck. */
  function Settle(row: Row, e: Event): Row {
    if row.pending.InFlight? && row.pending.slot == e.authorSeq then
      row.(pending := Idle,
           phase := if !e.Accepted() && RevisionIn(row.pending.body) == Some(row.revision) then Stuck else row.phase)
    else row
  }

  function Follow(row: Row, status: Status, n: nat): Row {
    row.(fsStatus := status, revision := n,
         phase := if status in {Completed, Failed} then Done else if status == Cancelled then Withdrawn else row.phase)
  }

  /** The effect of one feed event on the rows. */
  function Deliver(config: Config, agent: Agent, rows: map<string, Row>, e: Event): map<string, Row> {
    var settled := if e.author == agent.me then map t | t in rows :: Settle(rows[t], e) else rows;
    if !e.Accepted() then settled
    else
      match Decode(e.message)
      case Some(Assign(task, assignee)) =>
        if assignee == agent.me && IsCoordinator(config, e.author) && task !in settled
        then settled[task := Row(if agent.policy(task, Get(e.message.fields, "text")) then Queued else Rejected,
                                 Assigned, e.n, Idle, NO_TEAMS)]
        else settled
      case Some(Report(task, _, status)) =>
        if task in settled then settled[task := Follow(settled[task], status, e.n)] else settled
      case _ => settled
  }

  // ------------------------------------------------------------ reporting

  /** The status a row wants the channel to show. */
  function Wanted(row: Row, now: int, timeout: int): Option<Status> {
    match row.phase
    case Rejected => Some(Failed)
    case Posting => Some(Blocked)
    case Ambiguous => Some(Blocked)
    case Posted => if now - row.teams.postedAt >= timeout then Some(Blocked) else Some(Running)
    case Resulted => if row.teams.result.Some? then Some(row.teams.result.value.status) else None
    case _ => None
  }

  /** A terminal status is wanted exactly when the bridge knows the outcome: it refused the
      task, or it committed a result, and then it is that result's. A dispatch that is
      unresolved or overdue is blocked, and time alone never unblocks it. */
  lemma WantedMeaning(row: Row, now: int, later: int, timeout: int)
    requires now <= later
    ensures Wanted(row, now, timeout).Some? && Terminal(Wanted(row, now, timeout).value) <==>
              row.phase == Rejected || (row.phase == Resulted && row.teams.result.Some?)
    ensures row.phase == Resulted && row.teams.result.Some? ==> Wanted(row, now, timeout) == Some(row.teams.result.value.status)
    ensures row.phase == Rejected ==> Wanted(row, now, timeout) == Some(Failed)
    ensures Wanted(row, now, timeout) == Some(Blocked) ==> Wanted(row, later, timeout) == Some(Blocked)
    ensures Active(row.phase) ==> Wanted(row, now, timeout) in {Some(Blocked), Some(Running)}
    ensures row.phase in {Posting, Ambiguous} ==> Wanted(row, now, timeout) == Some(Blocked)
    ensures row.phase == Queued || Closed(row.phase) ==> Wanted(row, now, timeout).None?
  {
  }

  /** The next status to send on the way to the wanted one. */
  function NextStatus(current: Status, wanted: Status): Option<Status> {
    if current == wanted || Terminal(current) then None
    else if wanted in Transitions(current) then Some(wanted)
    else if Running in Transitions(current) then Some(Running)
    else None
  }

  function StatusMessage(task: string, revision: int, status: Status, text: string): Json {
    Obj(map["kind" := Str("status"), "task" := Str(task), "revision" := Int(revision),
            "status" := Str(StatusText(status)), "text" := Str(text)])
  }

  /** The idempotency key of a status; it determines the message. */
  function KeyOf(task: string, status: Status, revision: int, message: Json): (key: Key)
    ensures key.Derived?
  {
    Derived(Sha(Canon(Arr([Str(task), Str(StatusText(status)), Int(revision), message]))))
  }

  lemma StatusMessageDecodes(task: string, revision: int, status: Status, text: string)
    requires IsName(task) && IsText(Str(text))
    ensures Decode(StatusMessage(task, revision, status, text)) == Some(Report(task, revision, status))
  {
    hide IsName, IsText;
    var f := StatusMessage(task, revision, status, text).fields;
    assert f.Keys == {"kind", "task", "revision", "status", "text"};
    assert StatusOf(StatusText(status)) == Some(status);
  }

  /** Phases that nothing leaves. */
  predicate Closed(phase: Phase) {
    phase in {Done, Withdrawn, Stuck}
  }

  /** A task that waits for its post, is dispatched, or once was. */
  predicate TakenOn(row: Row) {
    row.phase == Queued || Active(row.phase) || row.teams.dispatch.Some?
  }

  /** A change of the Teams columns and of an open phase, of a task that was taken on. */
  predicate TeamsChange(row: Row, row': Row) {
    && row' == row.(phase := row'.phase, teams := row'.teams)
    && (row'.phase == row.phase || (!Closed(row.phase) && !Closed(row'.phase)))
    && (TakenOn(row') ==> TakenOn(row))
  }
}

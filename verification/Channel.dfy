/** The group channel's vocabulary: participants, commands, the broker's tables,
    journal events, and when the sequencer must accept a command. */
module Channel {
  import opened Wrappers
  import opened Wire

  datatype Role = Coordinator | Agent

  datatype Participant = Participant(name: string, role: Role)

  datatype Config = Config(
    channel: string,
    participants: seq<Participant>,
    maxEvents: nat,
    maxMessageBytes: nat,
    maxPending: nat,
    maxLeaseSeconds: nat,
    pageSize: nat)

  /** The configurations the loader lets through. */
  predicate ValidConfig(config: Config) {
    && IsName(config.channel)
    && 2 <= |config.participants| <= 64
    && (forall i :: 0 <= i < |config.participants| ==> IsName(config.participants[i].name))
    && (forall i, j :: 0 <= i < j < |config.participants| ==>
          config.participants[i].name != config.participants[j].name)
    && (exists i :: 0 <= i < |config.participants| && config.participants[i].role == Coordinator)
    && (forall i, j :: 0 <= i < j < |config.participants| ==>
          config.participants[i].role == Agent || config.participants[j].role == Agent)
    && 1 <= config.maxEvents <= 1_000_000
    && 512 <= config.maxMessageBytes <= 1_048_576
    && 1 <= config.maxPending <= 1024
    && 1 <= config.maxLeaseSeconds <= 3600
    && 1 <= config.pageSize <= 1000
  }

  predicate IsMember(config: Config, author: string) {
    exists i :: 0 <= i < |config.participants| && config.participants[i].name == author
  }

  predicate IsCoordinator(config: Config, author: string) {
    Participant(author, Coordinator) in config.participants
  }

  // ------------------------------------------------------------ tasks

  datatype Status = Assigned | Running | Blocked | Completed | Failed | Cancelled

  function StatusText(s: Status): string {
    match s
    case Assigned => "assigned"
    case Running => "running"
    case Blocked => "blocked"
    case Completed => "completed"
    case Failed => "failed"
    case Cancelled => "cancelled"
  }

  function StatusOf(text: string): Option<Status> {
    if text == "assigned" then Some(Assigned)
    else if text == "running" then Some(Running)
    else if text == "blocked" then Some(Blocked)
    else if text == "completed" then Some(Completed)
    else if text == "failed" then Some(Failed)
    else if text == "cancelled" then Some(Cancelled)
    else None
  }

  function Transitions(s: Status): set<Status> {
    match s
    case Assigned => {Running, Blocked, Cancelled}
    case Running => {Blocked, Completed, Failed, Cancelled}
    case Blocked => {Running, Failed, Cancelled}
    case _ => {}
  }

  predicate Terminal(s: Status) {
    s in {Completed, Failed, Cancelled}
  }

  datatype Task = Task(assignee: string, status: Status, revision: nat)

  datatype Lease = Lease(session: string, expires: int)

  /** The semantic tables of the broker's private journal. */
  datatype Tables = Tables(
    tasks: map<string, Task>,
    acks: map<string, nat>,
    presence: map<string, Lease>)

  const NO_TABLES := Tables(map[], map[], map[])

  // ------------------------------------------------------------ commands

  datatype Command =
    | Chat(mentions: seq<string>, replyTo: Option<int>)
    | Ack(upto: int)
    | Presence(session: string, ttl: int)
    | Assign(task: string, assignee: string)
    | Report(task: string, revision: int, status: Status)

  /** The exact field sets of the five message kinds. */
  function FieldsOf(kind: string): Option<set<string>> {
    if kind == "chat" then Some({"kind", "text", "mentions", "reply_to"})
    else if kind == "ack" then Some({"kind", "upto"})
    else if kind == "presence" then Some({"kind", "session", "ttl"})
    else if kind == "assign" then Some({"kind", "task", "assignee", "text"})
    else if kind == "status" then Some({"kind", "task", "revision", "status", "text"})
    else None
  }

  predicate HasShape(fields: map<string, Json>) {
    && Get(fields, "kind").Str?
    && FieldsOf(fields["kind"].s) == Some(fields.Keys)
    && ("text" in fields ==> IsText(fields["text"]))
  }

  /** What a message says, for every message whose fields have the right types. */
  function Decode(message: Json): Option<Command> {
    if !message.Obj? || !HasShape(message.fields) then None
    else
      var f := message.fields;
      var kind := f["kind"].s;
      if kind == "chat" then
        if f["mentions"].Arr? && (forall i :: 0 <= i < |f["mentions"].items| ==> f["mentions"].items[i].Str?)
           && (f["reply_to"].Null? || f["reply_to"].Int?)
        then
          Some(Chat(seq(|f["mentions"].items|, i requires 0 <= i < |f["mentions"].items| && f["mentions"].items[i].Str? => f["mentions"].items[i].s),
                    if f["reply_to"].Null? then None else Some(f["reply_to"].n)))
        else None
      else if kind == "ack" then
        if f["upto"].Int? then Some(Ack(f["upto"].n)) else None
      else if kind == "presence" then
        if IsNameValue(f["session"]) && f["ttl"].Int? then Some(Presence(f["session"].s, f["ttl"].n)) else None
      else if kind == "assign" then
        if IsNameValue(f["task"]) && f["assignee"].Str? then Some(Assign(f["task"].s, f["assignee"].s)) else None
      else
        if IsNameValue(f["task"]) && f["revision"].Int? && f["status"].Str? && StatusOf(f["status"].s).Some?
        then Some(Report(f["task"].s, f["revision"].n, StatusOf(f["status"].s).value))
        else None
  }

  predicate Distinct(names: seq<string>) {
    forall i, j :: 0 <= i < j < |names| ==> names[i] != names[j]
  }

  /** The channel's contract for a decoded command sequenced as event number `n`. */
  predicate Allowed(config: Config, tables: Tables, author: string, n: int, command: Command) {
    match command
    case Chat(mentions, replyTo) =>
      && |mentions| <= |config.participants|
      && Distinct(mentions)
      && (forall i :: 0 <= i < |mentions| ==> IsMember(config, mentions[i]))
      && (replyTo.Some? ==> 1 <= replyTo.value < n)
    case Ack(upto) =>
      && 0 <= upto < n
      && (author in tables.acks ==> tables.acks[author] <= upto)
    case Presence(_, ttl) => 0 <= ttl <= config.maxLeaseSeconds
    case Assign(task, assignee) =>
      IsCoordinator(config, author) && IsMember(config, assignee) && task !in tables.tasks
    case Report(task, revision, status) =>
      && 1 <= revision < n
      && task in tables.tasks
      && tables.tasks[task].revision == revision
      && status in Transitions(tables.tasks[task].status)
      && (author == tables.tasks[task].assignee || (IsCoordinator(config, author) && status == Cancelled))
  }

  /** When the sequencer accepts a message. */
  predicate Lawful(config: Config, tables: Tables, author: string, n: int, message: Json) {
    Decode(message).Some? && Allowed(config, tables, author, n, Decode(message).value)
  }

  /** What an accepted command does to the tables. Readers of the feed apply it too. */
  function Effect(tables: Tables, author: string, n: nat, at: int, command: Command): Tables {
    match command
    case Chat(_, _) => tables
    case Ack(upto) => if upto < 0 then tables else tables.(acks := tables.acks[author := upto])
    case Presence(session, ttl) =>
      tables.(presence := tables.presence[author := Lease(session, at + ttl * 1_000_000_000)])
    case Assign(task, assignee) => tables.(tasks := tables.tasks[task := Task(assignee, Assigned, n)])
    case Report(task, _, status) =>
      if task in tables.tasks
      then tables.(tasks := tables.tasks[task := tables.tasks[task].(status := status, revision := n)])
      else tables
  }

  // ------------------------------------------------------------ events

  datatype Reason =
    | NotAnObject | BadShape | BlankText | BadMentions | UnknownMember | BadInteger | AckRegressed
    | BadName | NotCoordinator | TaskReused | StaleOrIllegal | NotAssignee

  /** One sequenced envelope of the global log. */
  datatype Event = Event(
    n: nat,
    author: string,
    authorSeq: nat,
    request: Digest,
    at: int,
    previous: Digest,
    reason: Option<Reason>,
    message: Json)
  {
    predicate Accepted() {
      reason.None?
    }
  }

  function ReasonText(reason: Option<Reason>): Json {
    match reason
    case None => Null
    case Some(NotAnObject) => Str("message must be an object")
    case Some(BadShape) => Str("unknown kind or missing/extra fields")
    case Some(BlankText) => Str("nonempty text required")
    case Some(BadMentions) => Str("invalid mentions")
    case Some(UnknownMember) => Str("unknown participant")
    case Some(BadInteger) => Str("integer out of range")
    case Some(AckRegressed) => Str("acknowledgement cannot regress")
    case Some(BadName) => Str("expected lowercase identifier")
    case Some(NotCoordinator) => Str("only coordinator assigns tasks")
    case Some(TaskReused) => Str("task identity already assigned; never reuse")
    case Some(StaleOrIllegal) => Str("stale revision or invalid task transition")
    case Some(NotAssignee) => Str("only assignee reports status; coordinator may cancel")
  }

  /** The event object inside an envelope. */
  function EventJson(config: Config, e: Event): Json {
    Obj(map[
      "protocol" := Int(1), "channel" := Str(config.channel), "seq" := Int(e.n),
      "author" := Str(e.author), "author_seq" := Int(e.authorSeq),
      "request_sha256" := Hex(e.request), "at_ns" := Int(e.at), "previous" := Hex(e.previous),
      "accepted" := Bool(e.Accepted()), "reason" := ReasonText(e.reason), "message" := e.message])
  }

  function EventDigest(config: Config, e: Event): Digest {
    Sha(Canon(EventJson(config, e)))
  }

  function Envelope(config: Config, e: Event): Blob {
    Canon(Obj(map["event" := EventJson(config, e), "sha256" := Hex(EventDigest(config, e))]))
  }

  function LastDigest(config: Config, events: seq<Event>): Digest {
    if events == [] then Zeros else EventDigest(config, events[|events| - 1])
  }

  /** The exact request body a client writes to its next inbox slot. */
  function Request(config: Config, author: string, authorSeq: nat, message: Json): Blob {
    Canon(Obj(map["protocol" := Int(1), "channel" := Str(config.channel), "author" := Str(author),
                  "seq" := Int(authorSeq), "message" := message]))
  }

  /** The message of a correctly framed request for this author's slot. */
  function Framed(config: Config, author: string, authorSeq: nat, body: Blob): Option<Json> {
    match ParseObject(body)
    case None => None
    case Some(f) =>
      if && f.Keys == {"protocol", "channel", "author", "seq", "message"}
         && f["protocol"] == Int(1) && f["channel"] == Str(config.channel)
         && f["author"] == Str(author) && f["seq"] == Int(authorSeq)
      then Some(f["message"]) else None
  }

  lemma RequestIsFramed(config: Config, author: string, authorSeq: nat, message: Json)
    ensures Framed(config, author, authorSeq, Request(config, author, authorSeq, message)) == Some(message)
  {
    var f := ParseObject(Request(config, author, authorSeq, message)).value;
    assert f.Keys == {"protocol", "channel", "author", "seq", "message"};
  }
}

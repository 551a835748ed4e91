/** The sequenced log: what a journal admits, the fold of its accepted events, and
    the laws of every lawful history. */
module Ledger {
  import opened Wrappers
  import opened Wire
  import opened Channel

  /** The events of the journal and, per author, the last consumed inbox slot. */
  datatype Log = Log(events: seq<Event>, streams: map<string, nat>, tables: Tables)

  const EMPTY_LOG := Log([], map[], NO_TABLES)

  function Slot(log: Log, author: string): nat {
    if author in log.streams then log.streams[author] else 0
  }

  /** What a reader of the feed computes: the effects of the accepted events. */
  function Fold(events: seq<Event>): Tables {
    if events == [] then NO_TABLES
    else Step(Fold(events[..|events| - 1]), events[|events| - 1])
  }

  function Step(tables: Tables, e: Event): Tables {
    if e.Accepted() && Decode(e.message).Some?
    then Effect(tables, e.author, e.n, e.at, Decode(e.message).value)
    else tables
  }

  /** How many events of a log an author has. */
  function Own(events: seq<Event>, author: string): nat {
    if events == [] then 0
    else Own(events[..|events| - 1], author) + (if events[|events| - 1].author == author then 1 else 0)
  }

  lemma FoldAppend(events: seq<Event>, e: Event)
    ensures Fold(events + [e]) == Step(Fold(events), e)
  {
    assert (events + [e])[..|events|] == events;
  }

  lemma OwnAppend(events: seq<Event>, e: Event, author: string)
    ensures Own(events + [e], author) == Own(events, author) + (if e.author == author then 1 else 0)
  {
    assert (events + [e])[..|events|] == events;
  }

  lemma {:induction false} OwnMonotone(events: seq<Event>, i: nat, j: nat, author: string)
    requires i <= j <= |events|
    ensures Own(events[..i], author) <= Own(events[..j], author)
    decreases j
  {
    if i < j {
      assert events[..j][..j - 1] == events[..j - 1];
      OwnMonotone(events, i, j - 1, author);
    }
  }

  /** Event e is what the sequencer records after `past` for the request `body`. */
  ghost predicate Records(config: Config, past: seq<Event>, e: Event, body: Blob) {
    && e.n == |past| + 1
    && IsMember(config, e.author)
    && e.authorSeq == Own(past, e.author) + 1
    && e.request == Sha(body)
    && e.previous == LastDigest(config, past)
    && var message := Framed(config, e.author, e.authorSeq, body);
       && message.Some?
       && (e.Accepted() <==> Lawful(config, Fold(past), e.author, e.n, message.value))
       && e.message == (if e.Accepted() then message.value else Null)
  }

  /** Every event is what the sequencer records for the body its digest names. */
  ghost predicate History(config: Config, events: seq<Event>) {
    events == [] ||
    (var past, e := events[..|events| - 1], events[|events| - 1];
     History(config, past) && e.request.Sha? && Records(config, past, e, e.request.of))
  }

  ghost predicate LogInv(config: Config, log: Log) {
    && |log.events| <= config.maxEvents
    && History(config, log.events)
    && log.tables == Fold(log.events)
    && (forall a :: Slot(log, a) == Own(log.events, a))
  }

  /** One committed intake transaction of the sequencer, over its tables. */
  ghost predicate Accepts(config: Config, log: Log, log': Log, author: string, body: Blob) {
    && IsMember(config, author)
    && |log.events| < config.maxEvents
    && |log'.events| == |log.events| + 1
    && log'.events[..|log.events|] == log.events
    && log'.streams == log.streams[author := Slot(log, author) + 1]
    && var e := log'.events[|log.events|];
       && e.n == |log.events| + 1
       && e.author == author
       && e.authorSeq == Slot(log, author) + 1
       && e.request == Sha(body)
       && e.previous == LastDigest(config, log.events)
       && var message := Framed(config, author, e.authorSeq, body);
          && message.Some?
          && (e.Accepted() <==> Lawful(config, log.tables, author, e.n, message.value))
          && e.message == (if e.Accepted() then message.value else Null)
          && log'.tables == (if e.Accepted() then Effect(log.tables, author, e.n, e.at, Decode(message.value).value) else log.tables)
  }

  /** The journal after the author's next slot held this body, unless it is left alone. */
  function Admitted(config: Config, log: Log, author: string, body: Blob, at: int, why: Reason): (r: Option<Log>)
    ensures r.Some? ==> Accepts(config, log, r.value, author, body)
  {
    var n, slot := |log.events| + 1, Slot(log, author) + 1;
    var message := Framed(config, author, slot, body);
    if !IsMember(config, author) || n > config.maxEvents || message.None? then None
    else
      var lawful := Lawful(config, log.tables, author, n, message.value);
      var e := Event(n, author, slot, Sha(body), at, LastDigest(config, log.events),
                     if lawful then None else Some(why), if lawful then message.value else Null);
      Some(Log(log.events + [e], log.streams[author := slot],
               if lawful then Effect(log.tables, author, n, at, Decode(message.value).value) else log.tables))
  }

  /** Up to the time and the reason of a refusal, a body and the tables determine the intake. */
  lemma AdmittedIsAccepts(config: Config, log: Log, log': Log, author: string, body: Blob)
    ensures Accepts(config, log, log', author, body) <==> exists at, why :: Admitted(config, log, author, body, at, why) == Some(log')
  {
    hide Decode, Framed, Allowed, Effect, EventDigest;
    if Accepts(config, log, log', author, body) {
      var e := log'.events[|log.events|];
      var why :| e.reason.Some? ==> why == e.reason.value;
      assert log'.events == log.events + [e];
      assert Admitted(config, log, author, body, e.at, why) == Some(log');
    }
  }

  lemma {:induction false} HistoryPrefix(config: Config, events: seq<Event>, k: nat)
    requires History(config, events) && k <= |events|
    ensures History(config, events[..k])
    decreases |events|
  {
    if k < |events| {
      var past := events[..|events| - 1];
      assert events[..k] == past[..k];
      HistoryPrefix(config, past, k);
    } else {
      assert events[..k] == events;
    }
  }

  lemma HistoryAt(config: Config, events: seq<Event>, i: nat)
    requires History(config, events) && i < |events|
    ensures events[i].request.Sha? && Records(config, events[..i], events[i], events[i].request.of)
  {
    HistoryPrefix(config, events, i + 1);
    assert events[..i + 1][..i] == events[..i];
  }

  /** The tables equal the fold of the log after every intake, accepted or not, and a
      rejection leaves them as they were. */
  lemma AcceptsKeepsInv(config: Config, log: Log, log': Log, author: string, body: Blob)
    requires LogInv(config, log) && Accepts(config, log, log', author, body)
    ensures LogInv(config, log')
    ensures log'.events[|log.events|].reason.Some? ==> log'.tables == log.tables
  {
    hide Decode, Framed, Allowed;
    var e := log'.events[|log.events|];
    assert log'.events == log.events + [e];
    FoldAppend(log.events, e);
    forall a ensures Slot(log', a) == Own(log'.events, a) {
      OwnAppend(log.events, e, a);
    }
  }

  // ------------------------------------------------------------ laws of a history

  /** An accepted event that assigns the task or reports on it. */
  predicate Touches(e: Event, task: string) {
    e.Accepted() &&
    match Decode(e.message)
    case Some(Assign(t, _)) => t == task
    case Some(Report(t, _, _)) => t == task
    case _ => false
  }

  predicate Assigns(e: Event, task: string) {
    e.Accepted() && match Decode(e.message) case Some(Assign(t, _)) => t == task case _ => false
  }

  /** Number of the last accepted event about the task; 0 when there is none. */
  function LastTouch(events: seq<Event>, task: string): nat {
    if events == [] then 0
    else if Touches(events[|events| - 1], task) then |events|
    else LastTouch(events[..|events| - 1], task)
  }

  /** Event i was accepted exactly when the message that its author sent is lawful for the
      tables so far, and then it carries that message; a rejected event changes nothing. */
  lemma EventFacts(config: Config, events: seq<Event>, i: nat)
    requires History(config, events) && i < |events|
    ensures events[i].n == i + 1
    ensures events[i].Accepted() ==>
              Lawful(config, Fold(events[..i]), events[i].author, i + 1, events[i].message)
    ensures events[i].request.Sha?
    ensures var sent := Framed(config, events[i].author, events[i].authorSeq, events[i].request.of);
            && sent.Some?
            && (events[i].Accepted() <==> Lawful(config, Fold(events[..i]), events[i].author, i + 1, sent.value))
            && events[i].message == if events[i].Accepted() then sent.value else Null
    ensures Fold(events[..i + 1]) == Step(Fold(events[..i]), events[i])
  {
    hide Decode, Framed, Allowed;
    HistoryAt(config, events, i);
    assert events[..i + 1] == events[..i] + [events[i]];
    FoldAppend(events[..i], events[i]);
  }

  /** A task exists exactly when an accepted event mentions it, and its revision is
      the number of the last one. */
  lemma {:induction false} RevisionIsLastTouch(config: Config, events: seq<Event>, task: string)
    requires History(config, events)
    ensures task in Fold(events).tasks <==> LastTouch(events, task) != 0
    ensures task in Fold(events).tasks ==> Fold(events).tasks[task].revision == LastTouch(events, task)
    decreases |events|
  {
    hide Decode, History, Framed;
    if events != [] {
      var k := |events| - 1;
      HistoryPrefix(config, events, k);
      RevisionIsLastTouch(config, events[..k], task);
      EventFacts(config, events, k);
      assert events[..k + 1] == events;
    }
  }

  /** A task's assignee never changes and a terminal task never changes at all. */
  lemma {:induction false} TaskEvolution(config: Config, events: seq<Event>, i: nat, j: nat, task: string)
    requires History(config, events) && i <= j <= |events|
    requires task in Fold(events[..i]).tasks
    ensures task in Fold(events[..j]).tasks
    ensures Fold(events[..j]).tasks[task].assignee == Fold(events[..i]).tasks[task].assignee
    ensures Fold(events[..i]).tasks[task].revision <= Fold(events[..j]).tasks[task].revision
    ensures Terminal(Fold(events[..i]).tasks[task].status) ==>
              Fold(events[..j]).tasks[task] == Fold(events[..i]).tasks[task]
    decreases j
  {
    hide Decode;
    if i < j {
      TaskEvolution(config, events, i, j - 1, task);
      EventFacts(config, events, j - 1);
      RevisionBound(config, events, j - 1, task);
    }
  }

  /** A revision is the number of an event already in the log. */
  lemma RevisionBound(config: Config, events: seq<Event>, k: nat, task: string)
    requires History(config, events) && k <= |events|
    requires task in Fold(events[..k]).tasks
    ensures 1 <= Fold(events[..k]).tasks[task].revision <= k
  {
    HistoryPrefix(config, events, k);
    RevisionIsLastTouch(config, events[..k], task);
    LastTouchBound(events[..k], task);
  }

  lemma {:induction false} LastTouchBound(events: seq<Event>, task: string)
    ensures LastTouch(events, task) <= |events|
    ensures LastTouch(events, task) != 0 ==> Touches(events[LastTouch(events, task) - 1], task)
    decreases |events|
  {
    if events != [] && !Touches(events[|events| - 1], task) {
      LastTouchBound(events[..|events| - 1], task);
    }
  }

  /** No task identity is ever assigned twice. */
  lemma TaskNeverReused(config: Config, events: seq<Event>, i: nat, j: nat, task: string)
    requires History(config, events) && i < |events| && j < |events|
    requires Assigns(events[i], task) && Assigns(events[j], task)
    ensures i == j
  {
    if i != j {
      var low, high := if i < j then i else j, if i < j then j else i;
      EventFacts(config, events, low);
      EventFacts(config, events, high);
      TaskEvolution(config, events, low + 1, high, task);
    }
  }

  /** Acknowledgements never regress and name only earlier events. */
  lemma {:induction false} AcksMonotone(config: Config, events: seq<Event>, i: nat, j: nat, author: string)
    requires History(config, events) && i <= j <= |events|
    ensures author in Fold(events[..j]).acks ==> Fold(events[..j]).acks[author] < j
    ensures author in Fold(events[..i]).acks ==>
              && author in Fold(events[..j]).acks
              && Fold(events[..i]).acks[author] <= Fold(events[..j]).acks[author]
    decreases j
  {
    hide Decode, History;
    if i < j {
      AcksMonotone(config, events, i, j - 1, author);
      EventFacts(config, events, j - 1);
    } else if j > 0 {
      AcksMonotone(config, events, j - 1, j - 1, author);
      EventFacts(config, events, j - 1);
    }
  }

  /** A task changes only by its assignee's reports and by coordinator cancellations. */
  lemma OnlyAssigneeOrCancel(config: Config, events: seq<Event>, i: nat, task: string)
    requires History(config, events) && i < |events|
    requires task in Fold(events[..i]).tasks
    ensures task in Fold(events[..i + 1]).tasks
    ensures events[i].author != Fold(events[..i]).tasks[task].assignee ==>
              Fold(events[..i + 1]).tasks[task] in
                {Fold(events[..i]).tasks[task], Fold(events[..i]).tasks[task].(status := Cancelled, revision := i + 1)}
  {
    hide Decode;
    EventFacts(config, events, i);
  }

  /** Author slots are consumed in order, each once. */
  lemma SlotsInOrder(config: Config, events: seq<Event>, i: nat, j: nat)
    requires History(config, events) && i < j < |events|
    requires events[i].author == events[j].author
    ensures events[i].authorSeq < events[j].authorSeq
  {
    hide Framed, Lawful;
    HistoryAt(config, events, i);
    HistoryAt(config, events, j);
    assert events[..i + 1] == events[..i] + [events[i]];
    OwnAppend(events[..i], events[i], events[i].author);
    OwnMonotone(events, i + 1, j, events[i].author);
  }
}

/** The sequencer's decisions and tables told by the journal alone: which events are
    accepted, given the accepted events before them, and what the tables then hold. */
module Laws {
  import opened Wrappers
  import opened Wire
  import opened Channel
  import opened Ledger

  /** What an accepted event says. */
  function Says(e: Event): Option<Command> {
    if e.Accepted() then Decode(e.message) else None
  }

  /** An accepted acknowledgement of this author. */
  predicate Acknowledges(e: Event, author: string) {
    e.author == author && Says(e).Some? && Says(e).value.Ack?
  }

  /** The last one of them. */
  predicate AcknowledgesLast(events: seq<Event>, i: nat, author: string) {
    i < |events| && Acknowledges(events[i], author) && forall j :: i < j < |events| ==> !Acknowledges(events[j], author)
  }

  /** An accepted sign of life of this author. */
  predicate Appears(e: Event, author: string) {
    e.author == author && Says(e).Some? && Says(e).value.Presence?
  }

  predicate AppearsLast(events: seq<Event>, i: nat, author: string) {
    i < |events| && Appears(events[i], author) && forall j :: i < j < |events| ==> !Appears(events[j], author)
  }

  /** The status that an assignment or a report leaves. */
  function StatusIn(e: Event): Status {
    match Says(e) case Some(Report(_, _, status)) => status case _ => Assigned
  }

  /** The task was assigned to this participant. */
  predicate AssignedTo(events: seq<Event>, task: string, who: string) {
    exists a {:trigger events[a]} :: 0 <= a < |events| && Says(events[a]) == Some(Assign(task, who))
  }

  predicate IsAssigned(events: seq<Event>, task: string) {
    exists a {:trigger events[a]} :: 0 <= a < |events| && Assigns(events[a], task)
  }

  /** The message that the author of event i sent. */
  function Sent(config: Config, e: Event): Option<Json> {
    if e.request.Sha? then Framed(config, e.author, e.authorSeq, e.request.of) else None
  }

  // ------------------------------------------------------------ acknowledgements

  lemma {:induction false} AckIsStored(config: Config, events: seq<Event>, i: nat, author: string)
    requires History(config, events) && i < |events| && Acknowledges(events[i], author)
    ensures author in Fold(events[..i + 1]).acks && Fold(events[..i + 1]).acks[author] == Says(events[i]).value.upto
    ensures 0 <= Says(events[i]).value.upto <= i
  {
    hide Decode, History, Framed;
    EventFacts(config, events, i);
  }

  /** The event that an entry comes from. */
  lemma {:induction false} LastAck(config: Config, events: seq<Event>, author: string) returns (k: nat)
    requires History(config, events) && author in Fold(events).acks
    ensures AcknowledgesLast(events, k, author) && Fold(events).acks[author] == Says(events[k]).value.upto
    decreases |events|
  {
    hide Decode, History, Framed;
    k := |events| - 1;
    HistoryPrefix(config, events, k);
    EventFacts(config, events, k);
    assert events[..k + 1] == events;
    if !Acknowledges(events[k], author) {
      k := LastAck(config, events[..k], author);
    }
  }

  /** An author has an entry exactly if an acknowledgement of its was accepted, and the
      entry is what the last one says. */
  lemma {:induction false} AckIsLast(config: Config, events: seq<Event>, author: string)
    requires History(config, events)
    ensures author in Fold(events).acks <==> exists i {:trigger events[i]} :: 0 <= i < |events| && Acknowledges(events[i], author)
    ensures forall i: nat :: AcknowledgesLast(events, i, author) ==>
              author in Fold(events).acks && Fold(events).acks[author] == Says(events[i]).value.upto
  {
    hide History, Acknowledges;
    forall i | 0 <= i < |events| && Acknowledges(events[i], author) ensures author in Fold(events).acks {
      AckIsStored(config, events, i, author);
      AcksMonotone(config, events, i + 1, |events|, author);
      assert events[..|events|] == events;
    }
    if author in Fold(events).acks {
      var k := LastAck(config, events, author);
      forall i: nat | AcknowledgesLast(events, i, author) ensures i == k {}
    }
  }

  /** Of two accepted acknowledgements of one author the later one says no less. */
  lemma {:induction false} AcksNeverRegress(config: Config, events: seq<Event>, i: nat, j: nat, author: string)
    requires History(config, events) && i < j < |events|
    requires Acknowledges(events[i], author) && Acknowledges(events[j], author)
    ensures 0 <= Says(events[i]).value.upto <= Says(events[j]).value.upto <= j
  {
    hide History;
    AckIsStored(config, events, i, author);
    AckIsStored(config, events, j, author);
    AcksMonotone(config, events, i + 1, j + 1, author);
  }

  /** An acknowledgement is accepted exactly if it names an earlier event, or none, and no
      acknowledgement of its author accepted before says more. */
  lemma {:induction false} AckAcceptedIff(config: Config, events: seq<Event>, i: nat, upto: int)
    requires History(config, events) && i < |events|
    requires Sent(config, events[i]).Some? && Decode(Sent(config, events[i]).value) == Some(Ack(upto))
    ensures events[i].Accepted() <==>
              && 0 <= upto <= i
              && forall j :: 0 <= j < i && Acknowledges(events[j], events[i].author) ==> Says(events[j]).value.upto <= upto
  {
    hide Decode, History, Framed;
    EventFacts(config, events, i);
    var author := events[i].author;
    HistoryPrefix(config, events, i);
    forall j | 0 <= j < i && Acknowledges(events[j], author)
      ensures author in Fold(events[..i]).acks && Says(events[j]).value.upto <= Fold(events[..i]).acks[author]
    {
      AckIsStored(config, events, j, author);
      AcksMonotone(config, events, j + 1, i, author);
    }
    if author in Fold(events[..i]).acks {
      var k := LastAck(config, events[..i], author);
      assert events[..i][k] == events[k];
    }
  }

  // ------------------------------------------------------------ presence

  lemma {:induction false} LeaseIsStored(config: Config, events: seq<Event>, i: nat, author: string)
    requires History(config, events) && i < |events| && Appears(events[i], author)
    ensures var says := Says(events[i]).value;
            && 0 <= says.ttl <= config.maxLeaseSeconds
            && author in Fold(events[..i + 1]).presence
            && Fold(events[..i + 1]).presence[author] == Lease(says.session, events[i].at + says.ttl * 1_000_000_000)
  {
    hide Decode, History, Framed;
    EventFacts(config, events, i);
  }

  lemma {:induction false} PresentStays(config: Config, events: seq<Event>, i: nat, j: nat, author: string)
    requires History(config, events) && i <= j <= |events| && author in Fold(events[..i]).presence
    ensures author in Fold(events[..j]).presence
    decreases j
  {
    hide Decode, History, Framed;
    if i < j {
      PresentStays(config, events, i, j - 1, author);
      EventFacts(config, events, j - 1);
    }
  }

  /** The event that a lease comes from. */
  lemma {:induction false} LastSign(config: Config, events: seq<Event>, author: string) returns (k: nat)
    requires History(config, events) && author in Fold(events).presence
    ensures AppearsLast(events, k, author)
    ensures Fold(events).presence[author] == Lease(Says(events[k]).value.session, events[k].at + Says(events[k]).value.ttl * 1_000_000_000)
    decreases |events|
  {
    hide Decode, History, Framed;
    k := |events| - 1;
    HistoryPrefix(config, events, k);
    EventFacts(config, events, k);
    assert events[..k + 1] == events;
    if !Appears(events[k], author) {
      StepLease(Fold(events[..k]), events[k], author);
      k := LastSign(config, events[..k], author);
    }
  }

  /** An author is present exactly if a sign of life of its was accepted, and its lease is
      that of the last one. */
  lemma {:induction false} LeaseIsLast(config: Config, events: seq<Event>, author: string)
    requires History(config, events)
    ensures author in Fold(events).presence <==> exists i {:trigger events[i]} :: 0 <= i < |events| && Appears(events[i], author)
    ensures forall i: nat :: AppearsLast(events, i, author) ==>
              && author in Fold(events).presence
              && Fold(events).presence[author] == Lease(Says(events[i]).value.session, events[i].at + Says(events[i]).value.ttl * 1_000_000_000)
  {
    hide History, Appears;
    forall i | 0 <= i < |events| && Appears(events[i], author) ensures author in Fold(events).presence {
      LeaseIsStored(config, events, i, author);
      PresentStays(config, events, i + 1, |events|, author);
      assert events[..|events|] == events;
    }
    if author in Fold(events).presence {
      var k := LastSign(config, events, author);
      forall i: nat | AppearsLast(events, i, author) ensures i == k {}
    }
  }

  lemma StepLease(tables: Tables, e: Event, author: string)
    ensures !Appears(e, author) ==>
              && (author in Ledger.Step(tables, e).presence <==> author in tables.presence)
              && (author in tables.presence ==> Ledger.Step(tables, e).presence[author] == tables.presence[author])
  {
    hide Decode;
  }

  /** A sign of life is accepted exactly if its time to live is within the bound. */
  lemma {:induction false} PresenceAcceptedIff(config: Config, events: seq<Event>, i: nat, session: string, ttl: int)
    requires History(config, events) && i < |events|
    requires Sent(config, events[i]).Some? && Decode(Sent(config, events[i]).value) == Some(Presence(session, ttl))
    ensures events[i].Accepted() <==> 0 <= ttl <= config.maxLeaseSeconds
  {
    hide Decode, History, Framed;
    EventFacts(config, events, i);
  }

  /** A chat is accepted exactly if it mentions members only, none twice, and replies to an
      earlier event or to none. */
  lemma {:induction false} ChatAcceptedIff(config: Config, events: seq<Event>, i: nat, mentions: seq<string>, replyTo: Option<int>)
    requires History(config, events) && i < |events|
    requires Sent(config, events[i]).Some? && Decode(Sent(config, events[i]).value) == Some(Chat(mentions, replyTo))
    ensures events[i].Accepted() <==>
              && |mentions| <= |config.participants|
              && (forall a, b :: 0 <= a < b < |mentions| ==> mentions[a] != mentions[b])
              && (forall a :: 0 <= a < |mentions| ==> IsMember(config, mentions[a]))
              && (replyTo.Some? ==> 1 <= replyTo.value <= i)
  {
    hide Decode, History, Framed;
    EventFacts(config, events, i);
  }

  // ------------------------------------------------------------ tasks

  /** What a table of tasks owes to the events it was made of. */
  ghost predicate TaskOf(events: seq<Event>, tables: Tables, task: string) {
    && (task in tables.tasks <==> IsAssigned(events, task))
    && (task in tables.tasks ==>
          var t := tables.tasks[task];
          && 1 <= t.revision == LastTouch(events, task) <= |events|
          && Touches(events[t.revision - 1], task) && t.status == StatusIn(events[t.revision - 1])
          && (forall who :: AssignedTo(events, task, who) <==> who == t.assignee))
  }

  /** A task exists exactly if an accepted event assigned it. Its status is the one that its
      last accepted event left, and its assignee the one that it was assigned to. */
  lemma {:induction false} TaskIsLast(config: Config, events: seq<Event>, task: string)
    requires History(config, events)
    ensures task in Fold(events).tasks <==> IsAssigned(events, task)
    ensures task in Fold(events).tasks ==>
              var t := Fold(events).tasks[task];
              && 1 <= t.revision == LastTouch(events, task) <= |events|
              && Touches(events[t.revision - 1], task) && t.status == StatusIn(events[t.revision - 1])
              && (forall who :: AssignedTo(events, task, who) <==> who == t.assignee)
  {
    TasksAreLast(config, events, task);
  }

  lemma {:induction false} TasksAreLast(config: Config, events: seq<Event>, task: string)
    requires History(config, events)
    ensures TaskOf(events, Fold(events), task)
    decreases |events|
  {
    hide Decode, History, Framed, TaskOf, Fold, Ledger.Step, Lawful;
    if events == [] {
      NoTasks(task);
    } else {
      var k := |events| - 1;
      var past, e := events[..k], events[k];
      HistoryPrefix(config, events, k);
      TasksAreLast(config, past, task);
      EventFacts(config, events, k);
      assert events[..k + 1] == events && past + [e] == events;
      TaskOfMore(config, past, e, Fold(past), task);
    }
  }

  lemma NoTasks(task: string)
    ensures TaskOf([], Fold([]), task)
  {
  }

  lemma {:induction false} TaskOfMore(config: Config, past: seq<Event>, e: Event, tables: Tables, task: string)
    requires TaskOf(past, tables, task) && e.n == |past| + 1 && (e.Accepted() ==> Lawful(config, tables, e.author, e.n, e.message))
    ensures TaskOf(past + [e], Ledger.Step(tables, e), task)
  {
    hide Decode, Ledger.Step, Lawful, LastTouch, IsAssigned, AssignedTo, StatusIn, Touches, Assigns, Says;
    TaskAppend(past, e, task);
    StepTask(config, tables, e, |past| + 1, task);
    forall who ensures AssignedTo(past + [e], task, who) <==> AssignedTo(past, task, who) || Says(e) == Some(Assign(task, who)) {
      AssignedAppend(past, e, task, who);
    }
    forall who ensures AssignedTo(past, task, who) ==> IsAssigned(past, task) { AssignedIs(past, task, who); }
  }

  lemma {:induction false} AssignedIs(events: seq<Event>, task: string, who: string)
    ensures AssignedTo(events, task, who) ==> IsAssigned(events, task)
  {
    hide Decode;
    if AssignedTo(events, task, who) {
      var a :| 0 <= a < |events| && Says(events[a]) == Some(Assign(task, who));
      assert Assigns(events[a], task);
    }
  }

  lemma {:induction false} AssignedAppend(past: seq<Event>, e: Event, task: string, who: string)
    ensures AssignedTo(past + [e], task, who) <==> AssignedTo(past, task, who) || Says(e) == Some(Assign(task, who))
  {
    hide Says;
    var events := past + [e];
    assert events[|past|] == e && forall a :: 0 <= a < |past| ==> events[a] == past[a];
    if AssignedTo(past, task, who) {
      var a :| 0 <= a < |past| && Says(past[a]) == Some(Assign(task, who));
      assert Says(events[a]) == Some(Assign(task, who));
    }
  }

  lemma {:induction false} TaskAppend(past: seq<Event>, e: Event, task: string)
    ensures LastTouch(past + [e], task) == if Touches(e, task) then |past| + 1 else LastTouch(past, task)
    ensures IsAssigned(past + [e], task) <==> IsAssigned(past, task) || Assigns(e, task)
  {
    hide Touches, Assigns;
    var events := past + [e];
    assert events[..|past|] == past && events[|past|] == e;
    assert forall a :: 0 <= a < |past| ==> events[a] == past[a];
    if IsAssigned(past, task) {
      var a :| 0 <= a < |past| && Assigns(past[a], task);
      assert Assigns(events[a], task);
    }
  }

  /** What one lawful event does to one task. */
  lemma {:induction false} StepTask(config: Config, tables: Tables, e: Event, n: nat, task: string)
    requires e.n == n && (e.Accepted() ==> Lawful(config, tables, e.author, n, e.message))
    ensures var tables' := Step(tables, e);
            && (!Touches(e, task) ==>
                  !Assigns(e, task) && (task in tables'.tasks <==> task in tables.tasks) && (task in tables.tasks ==> tables'.tasks[task] == tables.tasks[task]))
            && (Touches(e, task) ==>
                  && task in tables'.tasks && tables'.tasks[task].revision == n && tables'.tasks[task].status == StatusIn(e)
                  && (Assigns(e, task) <==> task !in tables.tasks)
                  && (Assigns(e, task) ==> Says(e) == Some(Assign(task, tables'.tasks[task].assignee)))
                  && (task in tables.tasks ==> tables'.tasks[task].assignee == tables.tasks[task].assignee))
    ensures Assigns(e, task) <==> Says(e).Some? && Says(e).value.Assign? && Says(e).value.task == task
  {
    hide Decode;
  }

  /** An assignment is accepted exactly if a coordinator makes it, to a member, of a task
      that no event accepted before assigned. */
  lemma {:induction false} AssignAcceptedIff(config: Config, events: seq<Event>, i: nat, task: string, who: string)
    requires History(config, events) && i < |events|
    requires Sent(config, events[i]).Some? && Decode(Sent(config, events[i]).value) == Some(Assign(task, who))
    ensures events[i].Accepted() <==>
              && IsCoordinator(config, events[i].author) && IsMember(config, who)
              && forall j :: 0 <= j < i ==> !Assigns(events[j], task)
  {
    hide Decode, History, Framed, Assigns, LastTouch, AssignedTo;
    EventFacts(config, events, i);
    HistoryPrefix(config, events, i);
    TaskIsLast(config, events[..i], task);
    assert forall j :: 0 <= j < i ==> events[..i][j] == events[j];
    if !IsAssigned(events[..i], task) {
      forall j | 0 <= j < i ensures !Assigns(events[j], task) { assert !Assigns(events[..i][j], task); }
    }
  }

  /** A report is accepted exactly if its revision is the number of the last accepted event
      about the task, its status may follow the one that this event left, and its author is
      the one that the task was assigned to, or a coordinator that cancels. */
  lemma {:induction false} ReportAcceptedIff(config: Config, events: seq<Event>, i: nat, task: string, revision: int, status: Status)
    requires History(config, events) && i < |events|
    requires Sent(config, events[i]).Some? && Decode(Sent(config, events[i]).value) == Some(Report(task, revision, status))
    ensures events[i].Accepted() <==>
              && 1 <= revision <= i && revision == LastTouch(events[..i], task)
              && status in Transitions(StatusIn(events[revision - 1]))
              && (AssignedTo(events[..i], task, events[i].author) || (IsCoordinator(config, events[i].author) && status == Cancelled))
  {
    hide Decode, History, Framed, Assigns, LastTouch, AssignedTo, StatusIn, Touches, IsAssigned;
    EventFacts(config, events, i);
    HistoryPrefix(config, events, i);
    TaskIsLast(config, events[..i], task);
    RevisionIsLastTouch(config, events[..i], task);
    if 1 <= revision <= i { assert events[..i][revision - 1] == events[revision - 1]; }
  }
}

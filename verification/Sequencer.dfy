/** The broker: one bounded round at a time, over its private journal and the
    mailboxes it writes. `budget` counts the file operations and transactions a call
    may still complete before the process dies; every state in between is recorded in
    `trace`, which is always a run of the fan-out protocol. */
module Sequencer {
  import opened Wrappers
  import opened Wire
  import opened Channel
  import opened Ledger
  import opened Fanout

  /** One stable read of an inbox slot. */
  datatype Read = Missing | Unreadable | Bytes(body: Blob)

  datatype Intake = Absent | Deferred | Taken

  /** What a participant's slot looks like during one round: two reads and the clock. */
  datatype SlotView = SlotView(first: Read, second: Read, at: int)

  /** A slot that holds a correctly framed request, unchanged while it is validated. */
  predicate Takes(config: Config, author: string, authorSeq: nat, view: SlotView) {
    view.first.Bytes? && view.second == view.first && Framed(config, author, authorSeq, view.first.body).Some?
  }

  class Broker {
    const config: Config
    var events: seq<Event>
    var published: set<nat>
    var streams: map<string, nat>
    var tasks: map<string, Task>
    var acks: map<string, nat>
    var presence: map<string, Lease>
    var boxes: seq<Mailbox>
    ghost var trace: seq<Fan>

    ghost function View(): Fan
      reads this
    {
      Fan(events, published, boxes)
    }

    ghost function Semantic(): Tables
      reads this
    {
      Tables(tasks, acks, presence)
    }

    ghost function Journal(): Log
      reads this
    {
      Log(events, streams, Semantic())
    }

    ghost predicate Valid()
      reads this
    {
      && LogInv(config, Journal())
      && IsRun(config, trace)
      && trace[|trace| - 1] == View()
    }

    constructor (config: Config)
      requires ValidConfig(config)
      ensures Valid() && this.config == config
      ensures events == [] && trace == [View()]
    {
      this.config := config;
      events, published, streams := [], {}, map[];
      tasks, acks, presence := map[], map[], map[];
      boxes := seq(|config.participants|, _ => EMPTY_MAILBOX);
      new;
      trace := [View()];
    }

    // ---------------------------------------------------------- semantics

    /** Validates a message and applies its effect inside the intake transaction. */
    method Message(author: string, message: Json, n: nat, at: int) returns (reason: Option<Reason>)
      requires n >= 1
      modifies this`tasks, this`acks, this`presence
      ensures reason.None? <==> Lawful(config, old(Semantic()), author, n, message)
      ensures Semantic() == if reason.None? then Effect(old(Semantic()), author, n, at, Decode(message).value) else old(Semantic())
      ensures reason.None? ==>
                match Decode(message).value
                case Chat(_, _) => Semantic() == old(Semantic())
                case Ack(upto) => upto >= 0 && Semantic() == Tables(old(tasks), old(acks)[author := upto], old(presence))
                case Presence(session, ttl) => Semantic() == Tables(old(tasks), old(acks), old(presence)[author := Lease(session, at + ttl * 1_000_000_000)])
                case Assign(task, who) => Semantic() == Tables(old(tasks)[task := Task(who, Assigned, n)], old(acks), old(presence))
                case Report(task, _, status) =>
                  && task in old(tasks)
                  && Semantic() == Tables(old(tasks)[task := Task(old(tasks)[task].assignee, status, n)], old(acks), old(presence))
    {
      if !message.Obj? { return Some(NotAnObject); }
      var f := message.fields;
      if !Get(f, "kind").Str? || FieldsOf(f["kind"].s) != Some(f.Keys) { return Some(BadShape); }
      if "text" in f && !IsText(f["text"]) { return Some(BlankText); }
      var kind := f["kind"].s;
      if kind == "chat" {
        reason := Mention(f["mentions"], f["reply_to"], n);
        ChatLawful(config, Semantic(), author, n, message);
      } else if kind == "ack" {
        if !InRange(f["upto"], 0, n - 1) { return Some(BadInteger); }
        var upto := f["upto"].n;
        if author in acks && upto < acks[author] { return Some(AckRegressed); }
        acks := acks[author := upto];
        reason := None;
      } else if kind == "presence" {
        if !IsNameValue(f["session"]) { return Some(BadName); }
        if !InRange(f["ttl"], 0, config.maxLeaseSeconds) { return Some(BadInteger); }
        presence := presence[author := Lease(f["session"].s, at + f["ttl"].n * 1_000_000_000)];
        reason := None;
      } else if kind == "assign" {
        if !IsCoordinator(config, author) { return Some(NotCoordinator); }
        if !IsNameValue(f["task"]) { return Some(BadName); }
        if !f["assignee"].Str? || !IsMember(config, f["assignee"].s) { return Some(UnknownMember); }
        if f["task"].s in tasks { return Some(TaskReused); }
        tasks := tasks[f["task"].s := Task(f["assignee"].s, Assigned, n)];
        reason := None;
      } else {
        reason := Status(author, f, n);
      }
    }

    /** A chat is lawful exactly when its mentions and its reply pass the checks. */
    lemma ChatLawful(config: Config, tables: Tables, author: string, n: nat, message: Json)
      requires message.Obj? && HasShape(message.fields) && message.fields["kind"] == Str("chat")
      ensures var mentions, replyTo := message.fields["mentions"], message.fields["reply_to"];
              Lawful(config, tables, author, n, message) <==>
                && mentions.Arr?
                && |mentions.items| <= |config.participants|
                && (forall i :: 0 <= i < |mentions.items| ==> mentions.items[i].Str?)
                && (forall i, j :: 0 <= i < j < |mentions.items| ==> mentions.items[i] != mentions.items[j])
                && (forall i :: 0 <= i < |mentions.items| ==> IsMember(config, mentions.items[i].s))
                && (replyTo.Null? || InRange(replyTo, 1, n - 1))
      ensures Lawful(config, tables, author, n, message) ==> Effect(tables, author, n, 0, Decode(message).value) == tables
    {
      var mentions := message.fields["mentions"];
      if Decode(message).Some? {
        var names := Decode(message).value.mentions;
        assert forall i :: 0 <= i < |names| ==> names[i] == mentions.items[i].s && mentions.items[i] == Str(names[i]);
      }
    }

    method Mention(mentions: Json, replyTo: Json, n: nat) returns (reason: Option<Reason>)
      ensures reason.None? <==>
                && mentions.Arr?
                && |mentions.items| <= |config.participants|
                && (forall i :: 0 <= i < |mentions.items| ==> mentions.items[i].Str?)
                && (forall i, j :: 0 <= i < j < |mentions.items| ==> mentions.items[i] != mentions.items[j])
                && (forall i :: 0 <= i < |mentions.items| ==> IsMember(config, mentions.items[i].s))
                && (replyTo.Null? || InRange(replyTo, 1, n - 1))
    {
      if || !mentions.Arr?
         || |mentions.items| > |config.participants|
         || (exists i :: 0 <= i < |mentions.items| && !mentions.items[i].Str?)
         || (exists i, j :: 0 <= i < j < |mentions.items| && mentions.items[i] == mentions.items[j])
      {
        return Some(BadMentions);
      }
      for i := 0 to |mentions.items|
        invariant forall k :: 0 <= k < i ==> IsMember(config, mentions.items[k].s)
      {
        if !IsMember(config, mentions.items[i].s) { return Some(UnknownMember); }
      }
      if !replyTo.Null? && !InRange(replyTo, 1, n - 1) { return Some(BadInteger); }
      return None;
    }

    method Status(author: string, f: map<string, Json>, n: nat) returns (reason: Option<Reason>)
      requires n >= 1 && "task" in f && "revision" in f && "status" in f
      modifies this`tasks
      ensures reason.None? <==>
                && IsNameValue(f["task"]) && f["revision"].Int? && f["status"].Str? && StatusOf(f["status"].s).Some?
                && Allowed(config, old(Semantic()), author, n,
                           Channel.Report(f["task"].s, f["revision"].n, StatusOf(f["status"].s).value))
      ensures reason.None? ==>
                Semantic() == Effect(old(Semantic()), author, n, 0,
                                     Channel.Report(f["task"].s, f["revision"].n, StatusOf(f["status"].s).value))
      ensures reason.Some? ==> tasks == old(tasks)
    {
      if !IsNameValue(f["task"]) { return Some(BadName); }
      var task := f["task"].s;
      if !InRange(f["revision"], 1, n - 1) { return Some(BadInteger); }
      if task !in tasks || f["revision"].n != tasks[task].revision || !f["status"].Str? {
        return Some(StaleOrIllegal);
      }
      var status := StatusOf(f["status"].s);
      if status.None? || status.value !in Transitions(tasks[task].status) { return Some(StaleOrIllegal); }
      if author != tasks[task].assignee && !(IsCoordinator(config, author) && status.value == Cancelled) {
        return Some(NotAssignee);
      }
      tasks := tasks[task := tasks[task].(status := status.value, revision := n)];
      return None;
    }

    // ---------------------------------------------------------- intake

    /** Reads one author's next slot and commits it, accepted or rejected, in one
        transaction. A missing, unreadable, changing or misframed slot is left alone. */
    method Accept(author: string, view: SlotView) returns (result: Intake)
      requires Valid() && AllPublished(View()) && IsMember(config, author)
      modifies this
      ensures Valid() && old(trace) <= trace
      ensures published == old(published) && boxes == old(boxes)
      ensures result.Taken? <==>
                Takes(config, author, Slot(old(Journal()), author) + 1, view) && |old(events)| < config.maxEvents
      ensures result.Taken? ==> Accepts(config, old(Journal()), Journal(), author, view.first.body)
      ensures !result.Taken? ==> Journal() == old(Journal())
      ensures result.Absent? <==> view.first.Missing?
    {
      hide Decode, Framed, History, IsRun, EventJson, Allowed, Effect;
      if view.first.Missing? { return Absent; }
      var authorSeq := (if author in streams then streams[author] else 0) + 1;
      if view.first.Unreadable? || view.second != view.first { return Deferred; }
      var message := Framed(config, author, authorSeq, view.first.body);
      if message.None? { return Deferred; }
      var n := |events| + 1;
      if n > config.maxEvents { return Deferred; }
      ghost var before := Journal();
      var reason := Message(author, message.value, n, view.at);
      var e := Event(n, author, authorSeq, Sha(view.first.body), view.at, LastDigest(config, events), reason,
                     if reason.None? then message.value else Null);
      events := events + [e];
      streams := streams[author := authorSeq];
      AcceptsKeepsInv(config, before, Journal(), author, view.first.body);
      ExtendRun(config, trace, Admit(e), View());
      trace := trace + [View()];
      return Taken;
    }

    // ---------------------------------------------------------- fan-out primitives

    /** Links the event file into one feed, never replacing. */
    method PutFile(p: nat, n: nat)
      requires Valid() && Next(config, View(), Put(p, n), PutView(p, n))
      modifies this`boxes, this`trace
      ensures Valid() && old(trace) <= trace
      ensures View() == old(PutView(p, n))
    {
      boxes := boxes[p := boxes[p].(feed := boxes[p].feed[n := Channel.Envelope(config, events[n - 1])])];
      ExtendRun(config, trace, Put(p, n), View());
      trace := trace + [View()];
    }

    ghost function PutView(p: nat, n: nat): Fan
      reads this
    {
      if p < |boxes| && 1 <= n <= |events|
      then View().(boxes := boxes[p := boxes[p].(feed := boxes[p].feed[n := Channel.Envelope(config, events[n - 1])])])
      else View()
    }

    /** Makes the live entries of one feed directory durable. */
    method Sync(p: nat)
      requires Valid() && p < |boxes|
      modifies this`boxes, this`trace
      ensures Valid() && old(trace) <= trace
      ensures boxes == old(boxes)[p := old(boxes[p]).(synced := old(boxes[p]).feed.Keys, safeHead := old(boxes[p]).head)]
    {
      boxes := boxes[p := boxes[p].(synced := boxes[p].feed.Keys, safeHead := boxes[p].head)];
      ExtendRun(config, trace, Barrier(p), View());
      trace := trace + [View()];
    }

    /** Atomically replaces one mailbox's HEAD. */
    method WriteHead(p: nat, n: nat)
      requires Valid() && p < |boxes| && 1 <= n <= |events| && n !in published
      requires forall q :: 0 <= q < |boxes| ==> n in boxes[q].synced
      modifies this`boxes, this`trace
      ensures Valid() && old(trace) <= trace
      ensures boxes == old(boxes)[p := old(boxes[p]).(head := HeadOf(config, events, n))]
    {
      boxes := boxes[p := boxes[p].(head := HeadOf(config, events, n))];
      ExtendRun(config, trace, SetHead(p, n), View());
      trace := trace + [View()];
    }

    /** Commits the published mark. */
    method MarkPublished(n: nat)
      requires Valid() && 1 <= n <= |events| && n !in published
      requires forall q :: 0 <= q < |boxes| ==> boxes[q].safeHead == HeadOf(config, events, n)
      modifies this`published, this`trace
      ensures Valid() && old(trace) <= trace
      ensures published == old(published) + {n}
    {
      published := published + {n};
      ExtendRun(config, trace, Mark(n), View());
      trace := trace + [View()];
    }

    /** What the disks show after a power loss between two operations. */
    method LosePower(after: seq<Mailbox>)
      requires Valid() && |after| == |boxes|
      requires forall q :: 0 <= q < |boxes| ==> Survives(boxes[q], after[q])
      modifies this`boxes, this`trace
      ensures Valid() && old(trace) <= trace && boxes == after
    {
      hide Survives, LogInv;
      boxes := after;
      ExtendRun(config, trace, PowerLoss(after), View());
      trace := trace + [View()];
    }

    /** Whatever was interrupted, the mailboxes satisfy the fan-out invariant. */
    lemma Sound()
      requires Valid()
      ensures Inv(config, View())
    {
      RunKeepsInv(config, trace, |trace| - 1);
    }

    // ---------------------------------------------------------- replay

    /** Copies event n to one feed and its barrier. */
    method SprayOne(p: nat, n: nat)
      requires Valid() && 1 <= n <= |events| && n !in published && p < |boxes|
      modifies this`boxes, this`trace
      ensures Valid() && old(trace) <= trace && |boxes| == old(|boxes|)
      ensures n in boxes[p].synced && forall q :: 0 <= q < |boxes| && q != p ==> boxes[q] == old(boxes[q])
    {
      hide Channel.Envelope, EventDigest, IsRun, LogInv;
      if n in boxes[p].feed {
        FeedIsJournal(p, n);
      } else {
        PutFile(p, n);
      }
      Sync(p);
    }

    /** Copies event n to every feed and its barriers, never changing other events. */
    method Spray(n: nat, budget: nat) returns (left: nat, done: bool)
      requires Valid() && 1 <= n <= |events| && n !in published
      modifies this`boxes, this`trace
      ensures Valid() && old(trace) <= trace && |boxes| == old(|boxes|)
      ensures done ==> forall q :: 0 <= q < |boxes| ==> n in boxes[q].synced
      ensures done <==> budget >= 2 * |boxes|
      ensures done ==> left == budget - 2 * |boxes|
    {
      hide Valid, LogInv, IsRun;
      left := budget;
      for p := 0 to |boxes|
        invariant Valid() && old(trace) <= trace && |boxes| == old(|boxes|)
        invariant forall q :: 0 <= q < p ==> n in boxes[q].synced
        invariant left == budget - 2 * p
      {
        if left < 2 {
          if left == 1 && n !in boxes[p].feed { PutFile(p, n); }
          return 0, false;
        }
        SprayOne(p, n);
        left := left - 2;
      }
      done := true;
    }

    /** An existing file never conflicts: it holds the journal's bytes. */
    lemma FeedIsJournal(p: nat, n: nat)
      requires Valid() && p < |boxes| && n in boxes[p].feed
      ensures 1 <= n <= |events| && boxes[p].feed[n] == Channel.Envelope(config, events[n - 1])
    {
      hide Channel.Envelope, EventDigest, LogInv;
      Sound();
      assert BoxInv(config, View(), boxes[p]);
    }

    /** Advances HEAD to event n in one mailbox. */
    method AdvanceOne(p: nat, n: nat)
      requires Valid() && 1 <= n <= |events| && n !in published && p < |boxes|
      requires forall q :: 0 <= q < |boxes| ==> n in boxes[q].synced
      modifies this`boxes, this`trace
      ensures Valid() && old(trace) <= trace && |boxes| == old(|boxes|) && forall q :: 0 <= q < |boxes| ==> n in boxes[q].synced
      ensures boxes[p].safeHead == HeadOf(config, events, n) && forall q :: 0 <= q < |boxes| && q != p ==> boxes[q] == old(boxes[q])
    {
      hide EventDigest, IsRun, LogInv;
      SyncedInFeed(p, n);
      WriteHead(p, n);
      Sync(p);
    }

    /** Advances HEAD to event n in every mailbox. */
    method Advance(n: nat, budget: nat) returns (left: nat, done: bool)
      requires Valid() && 1 <= n <= |events| && n !in published
      requires forall q :: 0 <= q < |boxes| ==> n in boxes[q].synced
      modifies this`boxes, this`trace
      ensures Valid() && old(trace) <= trace && |boxes| == old(|boxes|)
      ensures done ==> forall q :: 0 <= q < |boxes| ==> boxes[q].safeHead == HeadOf(config, events, n)
      ensures done <==> budget >= 2 * |boxes|
      ensures done ==> left == budget - 2 * |boxes|
    {
      hide Valid, LogInv, IsRun, HeadOf;
      left := budget;
      for p := 0 to |boxes|
        invariant Valid() && old(trace) <= trace && |boxes| == old(|boxes|)
        invariant forall q :: 0 <= q < |boxes| ==> n in boxes[q].synced
        invariant forall q :: 0 <= q < p ==> boxes[q].safeHead == HeadOf(config, events, n)
        invariant left == budget - 2 * p
      {
        if left < 2 {
          if left == 1 { WriteHead(p, n); }
          return 0, false;
        }
        AdvanceOne(p, n);
        left := left - 2;
      }
      done := true;
    }

    lemma SyncedInFeed(p: nat, n: nat)
      requires Valid() && p < |boxes| && n in boxes[p].synced
      ensures n in boxes[p].feed
    {
      hide Channel.Envelope, EventDigest, LogInv;
      Sound();
      assert BoxInv(config, View(), boxes[p]);
    }

    /** File operations and commits that publish one event in so many mailboxes. */
    static function PublishSteps(mailboxes: nat): nat {
      4 * mailboxes + 1
    }

    /** A bound on the steps of so many intakes. */
    static function IntakeSteps(mailboxes: nat, intakes: nat): nat {
      if intakes == 0 then 0 else IntakeSteps(mailboxes, intakes - 1) + 1 + PublishSteps(mailboxes)
    }

    lemma BoxPerParticipant()
      requires Valid()
      ensures |boxes| == |config.participants|
    {
      hide EventDigest, IsRun, LogInv;
      Sound();
    }

    /** At most the last event is unpublished. */
    lemma OnlyLast(n: nat)
      requires Valid() && 1 <= n <= |events| && n !in published
      ensures n == |events|
    {
      hide EventDigest, IsRun, LogInv;
      Sound();
      Unpublished(config, View(), n);
    }

    /** Publishes every event that is not yet published, in order. */
    method Replay(budget: nat) returns (left: nat, done: bool)
      requires Valid()
      modifies this`published, this`boxes, this`trace
      ensures Valid() && old(trace) <= trace && |boxes| == old(|boxes|)
      ensures done ==> AllPublished(View())
      ensures budget >= PublishSteps(|boxes|) ==> done && left >= budget - PublishSteps(|boxes|)
    {
      hide Valid, Channel.Envelope, EventDigest, IsRun, LogInv, HeadOf, Inv;
      left := budget;
      for n := 1 to |events| + 1
        invariant Valid() && old(trace) <= trace && |boxes| == old(|boxes|)
        invariant forall k :: 1 <= k < n ==> k in published
        invariant n <= |events| ==> left == budget
        invariant budget >= PublishSteps(|boxes|) ==> left >= budget - PublishSteps(|boxes|)
      {
        if n !in published {
          OnlyLast(n);
          left, done := Spray(n, left);
          if !done { return 0, false; }
          left, done := Advance(n, left);
          if !done || left == 0 { return 0, false; }
          MarkPublished(n);
          left := left - 1;
        }
      }
      AllAreOut();
      done := true;
    }

    lemma AllAreOut()
      requires Valid() && forall k :: 1 <= k <= |events| ==> k in published
      ensures AllPublished(View())
    {
      hide EventDigest, IsRun, LogInv;
      Sound();
    }

    // ---------------------------------------------------------- round

    /** One participant's turn: at most one slot, published before the next. */
    method Turn(name: string, view: SlotView, budget: nat) returns (result: Intake, left: nat, finished: bool)
      requires Valid() && AllPublished(View()) && IsMember(config, name) && budget > 0
      modifies this
      ensures Valid() && old(trace) <= trace && |boxes| == old(|boxes|)
      ensures old(events) <= events && |events| == |old(events)| + (if result.Taken? then 1 else 0)
      ensures result.Taken? <==> Takes(config, name, Slot(old(Journal()), name) + 1, view) && |old(events)| < config.maxEvents
      ensures forall a :: Slot(Journal(), a) == Slot(old(Journal()), a) + (if result.Taken? && a == name then 1 else 0)
      ensures (finished ==> AllPublished(View())) && (!result.Taken? ==> finished && left == budget)
      ensures budget > 1 + PublishSteps(|boxes|) ==> finished && left >= budget - 1 - PublishSteps(|boxes|)
    {
      hide Valid, Framed, LogInv, IsRun, Decode, EventJson, PublishSteps, AllPublished, Takes;
      result := Accept(name, view);
      left, finished := budget, true;
      if result.Taken? {
        left, finished := Replay(budget - 1);
      }
    }

    /** One round: finish the pending fan-out, then take at most one slot per
        participant, publishing each before the next. With room for its steps it
        finishes. */
    method Once(views: seq<SlotView>, budget: nat) returns (processed: nat, errors: nat, finished: bool)
      requires Valid() && |views| == |config.participants| && ValidConfig(config)
      modifies this
      ensures Valid() && old(trace) <= trace
      ensures old(events) <= events
      ensures finished ==> AllPublished(View()) && |events| == |old(events)| + processed
      ensures finished && |old(events)| + |views| <= config.maxEvents ==>
                forall i {:trigger config.participants[i]} :: 0 <= i < |views| ==>
                  var name := config.participants[i].name;
                  Slot(Journal(), name) == Slot(old(Journal()), name)
                    + (if Takes(config, name, Slot(old(Journal()), name) + 1, views[i]) then 1 else 0)
      ensures budget > PublishSteps(|views|) + IntakeSteps(|views|, |views|) ==> finished
    {
      hide Valid, Framed, LogInv, IsRun, Decode, EventJson, PublishSteps, AllPublished, Takes, Slot;
      processed, errors := 0, 0;
      var left: nat;
      BoxPerParticipant();
      left, finished := Replay(budget);
      if !finished { return; }
      for i := 0 to |views|
        invariant Valid() && AllPublished(View()) && old(trace) <= trace && |boxes| == old(|boxes|)
        invariant old(events) <= events && |events| == |old(events)| + processed && processed <= i
        invariant |old(events)| + |views| <= config.maxEvents ==>
                    forall k {:trigger config.participants[k]} :: 0 <= k < |views| ==>
                      var name := config.participants[k].name;
                      Slot(Journal(), name) == Slot(old(Journal()), name)
                        + (if k < i && Takes(config, name, Slot(old(Journal()), name) + 1, views[k]) then 1 else 0)
        invariant budget > PublishSteps(|views|) + IntakeSteps(|views|, |views|) ==> left > IntakeSteps(|views|, |views| - i)
      {
        if left == 0 { finished := false; return; }
        var result;
        result, left, finished := Turn(config.participants[i].name, views[i], left);
        if result.Taken? {
          processed := processed + 1;
          if !finished { return; }
        } else if result.Deferred? {
          errors := errors + 1;
        }
      }
      finished := true;
    }
  }
}

/** One author's durable outbox, its inbox directory, and the sequencer that consumes
    it: the protocol, what every run keeps, and end-to-end admission. */
module Outbox {
  import opened Wrappers
  import opened Wire
  import opened Channel
  import opened Ledger

  /** An idempotency key: a caller's identifier, or one derived from a digest. */
  datatype Key = Text(s: string) | Derived(d: Digest)

  datatype Sent = Sent(key: Key, message: Json)

  /** The author's durable state: what was ever queued, in order (slot i+1 is item i),
      the bodies not yet retired, and its inbox directory, live and durable. */
  datatype Desk = Desk(sent: seq<Sent>, outbox: map<nat, Blob>, inbox: map<nat, Blob>, safe: set<nat>)

  const EMPTY_DESK := Desk([], map[], map[], {})

  datatype DeskStep =
    | Queue(item: Sent)
    | Publish(slot: nat)
    | Barrier
    | Retire(slot: nat)
    | PowerLoss(kept: set<nat>)

  predicate HasKey(sent: seq<Sent>, key: Key) {
    exists i :: 0 <= i < |sent| && sent[i].key == key
  }

  ghost predicate DeskNext(config: Config, me: string, d: Desk, step: DeskStep, d': Desk) {
    match step
    case Queue(item) =>
      && !HasKey(d.sent, item.key)
      && |d.outbox| < config.maxPending && |d.sent| < config.maxEvents
      && d' == d.(sent := d.sent + [item],
                  outbox := d.outbox[|d.sent| + 1 := Request(config, me, |d.sent| + 1, item.message)])
    case Publish(slot) =>
      slot in d.outbox && slot !in d.inbox && d' == d.(inbox := d.inbox[slot := d.outbox[slot]])
    case Barrier => d' == d.(safe := d.inbox.Keys)
    case Retire(slot) => slot in d.outbox && slot in d.safe && d' == d.(outbox := d.outbox - {slot})
    case PowerLoss(kept) =>
      && d.safe <= kept <= d.inbox.Keys
      && d' == d.(inbox := map k | k in kept && k in d.inbox :: d.inbox[k], safe := kept)
  }

  // ------------------------------------------------------------ desk invariant

  ghost predicate DistinctKeys(sent: seq<Sent>) {
    forall i, j :: 0 <= i < j < |sent| ==> sent[i].key != sent[j].key
  }

  /** The body of a slot is the request of the message queued for it. */
  ghost predicate SlotBody(config: Config, me: string, sent: seq<Sent>, slot: nat, body: Blob) {
    1 <= slot <= |sent| && body == Request(config, me, slot, sent[slot - 1].message)
  }

  ghost predicate Bodies(config: Config, me: string, sent: seq<Sent>, files: map<nat, Blob>) {
    forall s :: s in files ==> SlotBody(config, me, sent, s, files[s])
  }

  /** Every queued slot is still in the outbox or durably in the inbox. */
  ghost predicate Covered(d: Desk) {
    forall s {:trigger s in d.outbox} {:trigger s in d.safe} :: 1 <= s <= |d.sent| ==> s in d.outbox || s in d.safe
  }

  ghost predicate DeskInv(config: Config, me: string, d: Desk) {
    && DistinctKeys(d.sent)
    && |d.sent| <= config.maxEvents
    && Bodies(config, me, d.sent, d.outbox)
    && Bodies(config, me, d.sent, d.inbox)
    && d.safe <= d.inbox.Keys
    && Covered(d)
    && |d.outbox| <= config.maxPending
  }

  lemma DeskKeepsInv(config: Config, me: string, d: Desk, step: DeskStep, d': Desk)
    requires DeskInv(config, me, d) && DeskNext(config, me, d, step, d')
    ensures DeskInv(config, me, d') && d.sent <= d'.sent
  {
    hide Request, SlotBody;
    match step
    case Queue(item) => QueueKeepsInv(config, me, d, item, d');
    case Retire(slot) => assert d.outbox.Keys == d'.outbox.Keys + {slot};
    case _ =>
  }

  lemma BodiesGrow(config: Config, me: string, sent: seq<Sent>, item: Sent, files: map<nat, Blob>)
    requires Bodies(config, me, sent, files)
    ensures Bodies(config, me, sent + [item], files)
    ensures Bodies(config, me, sent + [item], files[|sent| + 1 := Request(config, me, |sent| + 1, item.message)])
  {
    hide Request;
    forall s | s in files ensures SlotBody(config, me, sent + [item], s, files[s]) {
      assert SlotBody(config, me, sent, s, files[s]);
    }
  }

  lemma QueueKeepsInv(config: Config, me: string, d: Desk, item: Sent, d': Desk)
    requires DeskInv(config, me, d) && DeskNext(config, me, d, Queue(item), d')
    ensures DeskInv(config, me, d') && d.sent <= d'.sent
  {
    hide Request, Bodies, HasKey, DistinctKeys, Covered;
    BodiesGrow(config, me, d.sent, item, d.outbox);
    BodiesGrow(config, me, d.sent, item, d.inbox);
    NewKeyIsDistinct(d.sent, item);
    OneMoreSlot(d.outbox, |d.sent| + 1, Request(config, me, |d.sent| + 1, item.message));
    StillCovered(d, item, Request(config, me, |d.sent| + 1, item.message), d');
  }

  lemma OneMoreSlot(files: map<nat, Blob>, slot: nat, body: Blob)
    ensures |files[slot := body]| <= |files| + 1
  {
    assert files[slot := body].Keys == files.Keys + {slot};
  }

  lemma StillCovered(d: Desk, item: Sent, body: Blob, d': Desk)
    requires Covered(d) && d'.sent == d.sent + [item] && d'.outbox == d.outbox[|d.sent| + 1 := body] && d'.safe == d.safe
    ensures Covered(d')
  {
  }

  lemma NewKeyIsDistinct(sent: seq<Sent>, item: Sent)
    requires DistinctKeys(sent) && !HasKey(sent, item.key)
    ensures DistinctKeys(sent + [item])
  {
  }

  // ------------------------------------------------------------ with the sequencer

  /** One author's desk beside the sequencer's journal, which any other author also uses. */
  datatype Mail = Mail(desk: Desk, log: Log)

  datatype MailStep =
    | Local(step: DeskStep)
    | AdmitMine
    | AdmitOther(author: string, body: Blob)

  ghost predicate MailNext(config: Config, me: string, m: Mail, step: MailStep, m': Mail) {
    match step
    case Local(local) => DeskNext(config, me, m.desk, local, m'.desk) && m'.log == m.log
    case AdmitMine =>
      && m'.desk == m.desk
      && Slot(m.log, me) + 1 in m.desk.inbox
      && Accepts(config, m.log, m'.log, me, m.desk.inbox[Slot(m.log, me) + 1])
    case AdmitOther(author, body) =>
      author != me && m'.desk == m.desk && Accepts(config, m.log, m'.log, author, body)
  }

  /** The author's event e carries the message queued for its slot. */
  ghost predicate Carries(config: Config, me: string, sent: seq<Sent>, e: Event) {
    && 1 <= e.authorSeq <= |sent|
    && e.request == Sha(Request(config, me, e.authorSeq, sent[e.authorSeq - 1].message))
    && (e.Accepted() ==> e.message == sent[e.authorSeq - 1].message)
  }

  ghost predicate MailInv(config: Config, me: string, m: Mail) {
    && DeskInv(config, me, m.desk)
    && LogInv(config, m.log)
    && Slot(m.log, me) <= |m.desk.sent|
    && (forall i {:trigger m.log.events[i]} :: 0 <= i < |m.log.events| && m.log.events[i].author == me ==>
          Carries(config, me, m.desk.sent, m.log.events[i]))
  }

  lemma MailKeepsInv(config: Config, me: string, m: Mail, step: MailStep, m': Mail)
    requires MailInv(config, me, m) && MailNext(config, me, m, step, m')
    ensures MailInv(config, me, m')
    ensures m.desk.sent <= m'.desk.sent && m.log.events <= m'.log.events
  {
    hide Request, Decode, Framed, History, Effect, Allowed;
    match step
    case Local(local) =>
      DeskKeepsInv(config, me, m.desk, local, m'.desk);
      forall i | 0 <= i < |m'.log.events| && m'.log.events[i].author == me
        ensures Carries(config, me, m'.desk.sent, m'.log.events[i])
      {
        assert Carries(config, me, m.desk.sent, m.log.events[i]);
      }
    case AdmitMine =>
      var slot := Slot(m.log, me) + 1;
      AcceptsKeepsInv(config, m.log, m'.log, me, m.desk.inbox[slot]);
      assert SlotBody(config, me, m.desk.sent, slot, m.desk.inbox[slot]);
      RequestIsFramed(config, me, slot, m.desk.sent[slot - 1].message);
      AdmitKeepsCarries(config, me, m, m', me);
    case AdmitOther(author, body) =>
      AcceptsKeepsInv(config, m.log, m'.log, author, body);
      AdmitKeepsCarries(config, me, m, m', author);
  }

  lemma AdmitKeepsCarries(config: Config, me: string, m: Mail, m': Mail, author: string)
    requires MailInv(config, me, m) && m'.desk == m.desk
    requires |m'.log.events| == |m.log.events| + 1 && m'.log.events[..|m.log.events|] == m.log.events
    requires m'.log.events[|m.log.events|].author == author
    requires author == me ==> Carries(config, me, m.desk.sent, m'.log.events[|m.log.events|])
    ensures m.log.events <= m'.log.events
    ensures forall i {:trigger m'.log.events[i]} :: 0 <= i < |m'.log.events| && m'.log.events[i].author == me ==>
              Carries(config, me, m'.desk.sent, m'.log.events[i])
  {
    hide Request;
    forall i | 0 <= i < |m'.log.events| && m'.log.events[i].author == me
      ensures Carries(config, me, m'.desk.sent, m'.log.events[i])
    {
      assert i < |m.log.events| ==> m'.log.events[i] == m.log.events[i];
    }
  }

  // ------------------------------------------------------------ whole runs

  ghost predicate MailCanStep(config: Config, me: string, m: Mail, m': Mail) {
    exists step: MailStep :: MailNext(config, me, m, step, m')
  }

  ghost predicate MailRun(config: Config, me: string, run: seq<Mail>) {
    |run| > 0 &&
    if |run| == 1 then run[0] == Mail(EMPTY_DESK, EMPTY_LOG)
    else MailRun(config, me, run[..|run| - 1]) && MailCanStep(config, me, run[|run| - 2], run[|run| - 1])
  }

  lemma {:induction false} MailRunKeepsInv(config: Config, me: string, run: seq<Mail>, i: nat, j: nat)
    requires MailRun(config, me, run) && i <= j < |run|
    ensures MailInv(config, me, run[i]) && MailInv(config, me, run[j])
    ensures run[i].desk.sent <= run[j].desk.sent && run[i].log.events <= run[j].log.events
    decreases |run|
  {
    hide MailInv, MailNext;
    if |run| == 1 {
      EmptyMailInv(config, me);
    } else if j < |run| - 1 {
      MailRunKeepsInv(config, me, run[..|run| - 1], i, j);
    } else {
      var past := run[..|run| - 1];
      MailRunKeepsInv(config, me, past, if i < j then i else j - 1, j - 1);
      var step: MailStep :| MailNext(config, me, run[j - 1], step, run[j]);
      MailKeepsInv(config, me, run[j - 1], step, run[j]);
    }
  }

  lemma EmptyMailInv(config: Config, me: string)
    ensures MailInv(config, me, Mail(EMPTY_DESK, EMPTY_LOG))
  {
  }

  /** A key that was ever queued owns its slot and its message for the rest of the run,
      and no other key ever owns that slot. */
  lemma KeyOwnsSlot(config: Config, me: string, run: seq<Mail>, i: nat, j: nat, slot: nat)
    requires MailRun(config, me, run) && i <= j < |run|
    requires 1 <= slot <= |run[i].desk.sent|
    ensures slot <= |run[j].desk.sent| && run[j].desk.sent[slot - 1] == run[i].desk.sent[slot - 1]
    ensures forall k :: 0 <= k < |run[j].desk.sent| ==>
              (run[j].desk.sent[k].key == run[i].desk.sent[slot - 1].key <==> k == slot - 1)
  {
    hide LogInv, SlotBody, Carries, MailRun;
    MailRunKeepsInv(config, me, run, i, j);
  }

  /** Nothing queued is lost: at every moment, also right after a power loss, its exact
      request is still in the outbox or durably in the inbox. */
  lemma QueuedIsNeverLost(config: Config, me: string, run: seq<Mail>, i: nat, slot: nat)
    requires MailRun(config, me, run) && i < |run| && 1 <= slot <= |run[i].desk.sent|
    ensures var d := run[i].desk;
            var body := Request(config, me, slot, d.sent[slot - 1].message);
            (slot in d.outbox && d.outbox[slot] == body) || (slot in d.safe && slot in d.inbox && d.inbox[slot] == body)
  {
    hide Request, Carries;
    MailRunKeepsInv(config, me, run, i, i);
    var d := run[i].desk;
    assert slot in d.outbox || slot in d.safe;
    assert slot in d.outbox ==> SlotBody(config, me, d.sent, slot, d.outbox[slot]);
    assert slot in d.inbox ==> SlotBody(config, me, d.sent, slot, d.inbox[slot]);
  }

  /** End to end: every event of this author in the global log stands for the message
      queued under its slot, with that request's hash; no slot is admitted twice, and
      slots are admitted in the order they were queued, without gaps. */
  lemma AdmittedOnceInOrder(config: Config, me: string, run: seq<Mail>, i: nat, a: nat, b: nat)
    requires MailRun(config, me, run) && i < |run|
    requires a <= b < |run[i].log.events|
    requires run[i].log.events[a].author == me && run[i].log.events[b].author == me
    ensures Carries(config, me, run[i].desk.sent, run[i].log.events[a])
    ensures a < b ==> run[i].log.events[a].authorSeq < run[i].log.events[b].authorSeq
    ensures run[i].log.events[a].authorSeq == Own(run[i].log.events[..a], me) + 1
    ensures run[i].log.events[b].authorSeq <= Slot(run[i].log, me)
  {
    hide Request, Framed, Lawful, Carries, Fold, History, DeskInv, MailRun, LastDigest;
    MailRunKeepsInv(config, me, run, i, i);
    var events := run[i].log.events;
    if a < b { SlotsInOrder(config, events, a, b); }
    HistoryAt(config, events, a);
    HistoryAt(config, events, b);
    assert events[..b + 1] == events[..b] + [events[b]];
    OwnAppend(events[..b], events[b], me);
    OwnMonotone(events, b + 1, |events|, me);
    assert events[..|events|] == events;
  }
}

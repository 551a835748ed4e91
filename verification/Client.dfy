/** The durable client of one identity: its journal tables and its inbox directory. */
module Client {
  import opened Wrappers
  import opened Wire
  import opened Channel
  import opened Outbox

  datatype QueueError = BadKey | KeyConflict | PendingLimit | EventLimit | ByteLimit

  /** One row of the table of sent keys. */
  datatype Row = Row(slot: nat, hash: Digest)

  function MessageHash(message: Json): Digest {
    Sha(Canon(message))
  }

  predicate GoodKey(key: Key) {
    key.Derived? || IsName(key.s)
  }

  /** The key table and the next slot record exactly the items ever queued. */
  ghost predicate TablesOf(queued: seq<Sent>, sent: map<Key, Row>, next: nat) {
    && next == |queued| + 1
    && (forall key :: key in sent <==> HasKey(queued, key))
    && (forall i {:trigger queued[i]} :: 0 <= i < |queued| ==>
          queued[i].key in sent && sent[queued[i].key] == Row(i + 1, MessageHash(queued[i].message)))
  }

  lemma TablesGrow(queued: seq<Sent>, sent: map<Key, Row>, next: nat, item: Sent)
    requires TablesOf(queued, sent, next) && item.key !in sent
    ensures TablesOf(queued + [item], sent[item.key := Row(next, MessageHash(item.message))], next + 1)
  {
    var after := sent[item.key := Row(next, MessageHash(item.message))];
    forall key ensures key in after <==> HasKey(queued + [item], key) {
      assert (queued + [item])[|queued|].key == item.key;
      if HasKey(queued, key) {
        var i :| 0 <= i < |queued| && queued[i].key == key;
        assert (queued + [item])[i].key == key;
      }
    }
  }

  class Client {
    const config: Config
    const me: string
    const length: Blob -> nat // encoded length of a body
    var outbox: map<nat, Blob>
    var sent: map<Key, Row>
    var next: nat
    var inbox: map<nat, Blob>
    var safe: set<nat>
    ghost var queued: seq<Sent>
    ghost var trace: seq<Desk>

    ghost function View(): Desk
      reads this`queued, this`outbox, this`inbox, this`safe
    {
      Desk(queued, outbox, inbox, safe)
    }

    ghost predicate Tables()
      reads this`queued, this`sent, this`next
    {
      TablesOf(queued, sent, next)
    }

    ghost predicate Valid()
      reads this
    {
      && Tables()
      && DeskInv(config, me, View())
      && IsDeskRun(config, me, trace)
      && trace[|trace| - 1] == View()
    }

    constructor (config: Config, me: string, length: Blob -> nat)
      requires ValidConfig(config)
      ensures Valid() && this.config == config && this.me == me && this.length == length
      ensures View() == EMPTY_DESK && trace == [EMPTY_DESK]
    {
      this.config, this.me, this.length := config, me, length;
      outbox, sent, next, inbox, safe := map[], map[], 1, map[], {};
      queued, trace := [], [EMPTY_DESK];
    }

    /** Persists a message under its key. A known key returns its first slot, or fails if
        the message differs; only a new key within the limits consumes a slot. */
    method Queue(message: Json, key: Key) returns (r: Result<nat, QueueError>)
      requires Valid()
      modifies this`outbox, this`sent, this`next, this`queued, this`trace
      ensures Valid() && old(trace) <= trace
      ensures r.Success? ==> 1 <= r.value <= |queued| && queued[r.value - 1] == Sent(key, message)
      ensures old(HasKey(queued, key)) || r.Failure? ==> View() == old(View()) && sent == old(sent)
      ensures !old(HasKey(queued, key)) && r.Success? ==>
                r.value == |queued| && DeskNext(config, me, old(View()), Outbox.Queue(Sent(key, message)), View())
      ensures GoodKey(key) && old(HasKey(queued, key)) ==> r.Success? || r == Failure(KeyConflict)
      ensures r == Failure(KeyConflict) <==>
                GoodKey(key) && exists i :: 0 <= i < |old(queued)| && old(queued)[i].key == key && old(queued)[i].message != message
      ensures r.Failure? && r.error != KeyConflict ==>
                || !GoodKey(key) || |old(outbox)| >= config.maxPending || |old(queued)| >= config.maxEvents
                || length(Request(config, me, |old(queued)| + 1, message)) > config.maxMessageBytes
    {
      hide Request, DeskInv, IsDeskRun;
      if !GoodKey(key) { return Failure(BadKey); }
      var digest := MessageHash(message);
      if key in sent {
        SentRow(key);
        return if sent[key].hash != digest then Failure(KeyConflict) else Success(sent[key].slot);
      }
      if |outbox| >= config.maxPending { return Failure(PendingLimit); }
      var slot := next;
      if !(1 <= slot <= config.maxEvents) { return Failure(EventLimit); }
      var body := Request(config, me, slot, message);
      if length(body) > config.maxMessageBytes { return Failure(ByteLimit); }
      Insert(key, message);
      return Success(slot);
    }

    /** The transaction that consumes a slot: outbox row, key row and next slot together. */
    method Insert(key: Key, message: Json)
      requires Valid() && key !in sent && |outbox| < config.maxPending && next <= config.maxEvents
      modifies this`outbox, this`sent, this`next, this`queued, this`trace
      ensures Valid() && old(trace) <= trace
      ensures DeskNext(config, me, old(View()), Outbox.Queue(Sent(key, message)), View())
    {
      hide Request, DeskInv, IsDeskRun, TablesOf;
      ghost var before := View();
      NoKey(key);
      TablesGrow(queued, sent, next, Sent(key, message));
      outbox := outbox[next := Request(config, me, next, message)];
      sent := sent[key := Row(next, MessageHash(message))];
      next := next + 1;
      queued := queued + [Sent(key, message)];
      Extend(before, Outbox.Queue(Sent(key, message)));
    }

    lemma NoKey(key: Key)
      requires Tables()
      ensures key in sent <==> HasKey(queued, key)
      ensures next == |queued| + 1
    {
    }

    lemma SentRow(key: Key)
      requires Tables() && key in sent
      ensures 1 <= sent[key].slot <= |queued|
      ensures queued[sent[key].slot - 1].key == key
      ensures sent[key].hash == MessageHash(queued[sent[key].slot - 1].message)
    {
      var i :| 0 <= i < |queued| && queued[i].key == key;
      assert sent[queued[i].key] == Row(i + 1, MessageHash(queued[i].message));
    }

    /** Records a completed step of the protocol. */
    ghost method Extend(before: Desk, step: DeskStep)
      requires IsDeskRun(config, me, trace) && trace[|trace| - 1] == before && DeskInv(config, me, before)
      requires DeskNext(config, me, before, step, View())
      modifies this`trace
      ensures IsDeskRun(config, me, trace) && trace == old(trace) + [View()]
      ensures DeskInv(config, me, View())
    {
      hide DeskInv, DeskNext;
      DeskKeepsInv(config, me, before, step, View());
      trace := trace + [View()];
      assert trace[..|trace| - 1] == old(trace);
    }

    /** Links a pending body into the inbox. */
    method Publish(slot: nat)
      requires Valid() && slot in outbox && slot !in inbox
      modifies this`inbox, this`trace
      ensures Valid() && old(trace) <= trace && inbox == old(inbox)[slot := outbox[slot]]
    {
      hide Request, Bodies, Covered, DistinctKeys, IsDeskRun, Tables;
      Identity(slot);
      ghost var before := View();
      inbox := inbox[slot := outbox[slot]];
      Extend(before, Outbox.Publish(slot));
    }

    /** The barrier on the inbox directory. */
    method Flush()
      requires Valid()
      modifies this`safe, this`trace
      ensures Valid() && old(trace) <= trace && old(safe) <= safe == inbox.Keys
    {
      hide Request, Bodies, Covered, DistinctKeys, IsDeskRun, Tables;
      SafeIsThere();
      ghost var before := View();
      safe := inbox.Keys;
      Extend(before, Outbox.Barrier);
    }

    /** Removes a body that is durable in the inbox from the outbox. */
    method Retire(slot: nat)
      requires Valid() && slot in outbox && slot in safe
      modifies this`outbox, this`trace
      ensures Valid() && old(trace) <= trace && outbox == old(outbox) - {slot}
      ensures slot in inbox && inbox[slot] == old(outbox)[slot]
    {
      hide Request, Bodies, Covered, DistinctKeys, IsDeskRun, Tables;
      SafeIsThere();
      Identity(slot);
      ghost var before := View();
      outbox := outbox - {slot};
      Extend(before, Outbox.Retire(slot));
    }

    /** Publishes one pending body and, once it is durable in the inbox, retires it. */
    method Deliver(slot: nat, budget: nat) returns (left: nat, done: bool)
      requires Valid() && slot in outbox
      modifies this`outbox, this`inbox, this`safe, this`trace
      ensures Valid() && old(trace) <= trace
      ensures done ==> outbox == old(outbox) - {slot}
      ensures !done ==> outbox == old(outbox)
      ensures old(safe) <= safe && old(inbox.Keys) <= inbox.Keys && forall s :: s in old(inbox) ==> inbox[s] == old(inbox)[s]
      ensures done ==> slot in safe && slot in inbox && inbox[slot] == old(outbox)[slot]
      ensures budget >= 3 ==> done && left >= budget - 3
    {
      hide Valid;
      left := budget;
      if slot !in inbox {
        if left == 0 { return 0, false; }
        Publish(slot);
        left := left - 1;
      }
      if left == 0 { return 0, false; }
      Flush();
      left := left - 1;
      if left == 0 { return 0, false; }
      Retire(slot);
      return left - 1, true;
    }

    /** These are the slots that left the outbox, in order. */
    static ghost predicate Left(published: seq<nat>, was: map<nat, Blob>, now: map<nat, Blob>) {
      && now.Keys <= was.Keys && (forall s :: s in now ==> now[s] == was[s])
      && (forall s :: s in published <==> s in was && s !in now)
      && (forall i, j :: 0 <= i < j < |published| ==> published[i] < published[j])
    }

    lemma OneMore(published: seq<nat>, was: map<nat, Blob>, now: map<nat, Blob>, slot: nat)
      requires Left(published, was, now) && slot in now && forall s :: s in published ==> s < slot
      ensures Left(published + [slot], was, now - {slot}) && now[slot] == was[slot]
      ensures forall s :: s in published + [slot] ==> s < slot + 1
      ensures |(now - {slot}).Keys| == |now.Keys| - 1
    {
      assert forall i :: 0 <= i < |published| ==> published[i] in published;
      assert (now - {slot}).Keys == now.Keys - {slot};
    }

    lemma WhatLeft(published: seq<nat>, was: map<nat, Blob>, now: map<nat, Blob>)
      requires Left(published, was, now)
      ensures now.Keys <= was.Keys && (forall s :: s in published <==> s in was && s !in now)
      ensures forall i, j :: 0 <= i < j < |published| ==> published[i] < published[j]
    {
    }

    /** Publishes the pending bodies in slot order, each durable in the inbox before it
        leaves the outbox. `budget` bounds the steps before the process dies; with three for
        each body it ends. */
    method Sync(budget: nat) returns (published: seq<nat>, done: bool)
      requires Valid()
      modifies this`outbox, this`inbox, this`safe, this`trace
      ensures Valid() && old(trace) <= trace
      ensures outbox.Keys <= old(outbox.Keys)
      ensures forall s :: s in published <==> s in old(outbox) && s !in outbox
      ensures forall i, j :: 0 <= i < j < |published| ==> published[i] < published[j]
      ensures done ==> outbox == map[]
      ensures budget >= 3 * |old(outbox).Keys| ==> done
      ensures forall s :: s in published ==> s in safe && s in inbox && inbox[s] == old(outbox)[s]
    {
      hide Valid, Left;
      published, done := [], true;
      var left: nat := budget;
      Slots();
      NoneLeft(outbox);
      for slot := 1 to next
        invariant Valid() && old(trace) <= trace
        invariant Left(published, old(outbox), outbox)
        invariant forall s :: s in published ==> s < slot
        invariant forall s :: s in outbox ==> slot <= s < next
        invariant budget >= 3 * |old(outbox).Keys| ==> left >= 3 * |outbox.Keys|
        invariant forall s :: s in published ==> s in old(outbox) && s in safe && s in inbox && inbox[s] == old(outbox)[s]
      {
        if slot in outbox {
          OneMore(published, old(outbox), outbox, slot);
          WhatLeft(published, old(outbox), outbox);
          left, done := Deliver(slot, left);
          if !done { return published, false; }
          published := published + [slot];
        }
      }
      WhatLeft(published, old(outbox), outbox);
      assert outbox.Keys == {};
    }

    lemma NoneLeft(was: map<nat, Blob>)
      ensures Left([], was, was)
    {
    }

    /** A power loss at the inbox: what is durable stays, of the rest only these names. */
    method LosePower(names: set<nat>)
      requires Valid()
      modifies this`inbox, this`safe, this`trace
      ensures Valid() && old(trace) <= trace
      ensures safe == old(safe) + names * old(inbox.Keys) && inbox.Keys == safe
      ensures forall s :: s in inbox ==> inbox[s] == old(inbox)[s]
    {
      hide Request, DeskInv, IsDeskRun, Tables;
      ghost var before := View();
      SafeIsThere();
      var kept := safe + names * inbox.Keys;
      inbox := map s | s in kept && s in inbox :: inbox[s];
      safe := kept;
      Extend(before, Outbox.PowerLoss(kept));
    }

    lemma SafeIsThere()
      requires Valid()
      ensures safe <= inbox.Keys
    {
    }

    lemma Slots()
      requires Valid()
      ensures next >= 1
      ensures forall s :: s in outbox ==> 1 <= s < next
    {
      hide Request;
      forall s | s in outbox ensures 1 <= s < next {
        assert SlotBody(config, me, queued, s, outbox[s]);
      }
    }

    /** The checks before publication cannot fail: an outbox row is the request of its
        sent key, and an inbox file of that slot already holds the same bytes. */
    lemma Identity(slot: nat)
      requires Valid() && slot in outbox
      ensures 1 <= slot <= |queued|
      ensures outbox[slot] == Request(config, me, slot, queued[slot - 1].message)
      ensures queued[slot - 1].key in sent && sent[queued[slot - 1].key] == Row(slot, MessageHash(queued[slot - 1].message))
      ensures slot in inbox ==> inbox[slot] == outbox[slot]
    {
      hide Request;
      assert SlotBody(config, me, queued, slot, outbox[slot]);
      assert slot in inbox ==> SlotBody(config, me, queued, slot, inbox[slot]);
      assert queued[slot - 1].key in sent;
    }
  }

  /** A sequence of steps of one desk, from the empty one. */
  ghost predicate IsDeskRun(config: Config, me: string, run: seq<Desk>) {
    |run| > 0 &&
    if |run| == 1 then run[0] == EMPTY_DESK
    else IsDeskRun(config, me, run[..|run| - 1]) && DeskCanStep(config, me, run[|run| - 2], run[|run| - 1])
  }

  ghost predicate DeskCanStep(config: Config, me: string, d: Desk, d': Desk) {
    exists step: DeskStep :: DeskNext(config, me, d, step, d')
  }
}

/** Reading the feed: one bounded page, and paging up to HEAD, over event files that
    may have been corrupted in any way. */
module Feed {
  import opened Wrappers
  import opened Wire
  import opened Channel
  import opened Ledger
  import opened Fanout

  /** A decoded envelope. */
  datatype Record = Record(event: map<string, Json>, digest: Digest)

  datatype FeedError = BadCursor | BadLimit | HeadMissing | HeadInvalid | HeadRegressed | EventInvalid | ChainBroken | HeadMismatch

  /** An envelope whose digest matches its event and whose event claims this number. */
  function DecodeEvent(config: Config, body: Blob, n: nat): Option<Record> {
    match ParseObject(body)
    case None => None
    case Some(record) =>
      if && record.Keys == {"event", "sha256"}
         && record["event"].Obj?
         && record["sha256"] == Hex(Sha(Canon(record["event"])))
         && EqualsInt(Get(record["event"].fields, "seq"), n)
         && Get(record["event"].fields, "channel") == Str(config.channel)
         && EqualsInt(Get(record["event"].fields, "protocol"), 1)
      then Some(Record(record["event"].fields, Sha(Canon(record["event"]))))
      else None
  }

  /** The decoded file of event n, if it is there and valid. */
  function FileAt(config: Config, feed: map<nat, Blob>, n: nat): Option<Record> {
    if n in feed then DecodeEvent(config, feed[n], n) else None
  }

  /** What a HEAD file names: a number, and whatever stands in the place of the digest. */
  datatype HeadFile = HeadFile(n: nat, sha: Json)

  /** Only the number is checked; the digest matters to a page that reaches HEAD. */
  function DecodeHead(config: Config, head: Blob): Option<HeadFile> {
    match ParseObject(head)
    case None => None
    case Some(f) =>
      if && f.Keys == {"channel", "seq", "sha256"}
         && f["channel"] == Str(config.channel)
         && InRange(f["seq"], 1, config.maxEvents)
      then Some(HeadFile(f["seq"].n, f["sha256"]))
      else None
  }

  /** The bytes the broker writes to HEAD. */
  function HeadBlob(config: Config, head: Head): Blob {
    Canon(Obj(map["channel" := Str(config.channel), "seq" := Int(head.n), "sha256" := Hex(head.digest)]))
  }

  function Min(a: int, b: int): int {
    if a <= b then a else b
  }

  // ------------------------------------------------------------ one page

  /** Record i of a page decodes file after+1+i and names the digest before it. */
  predicate LinkAt(config: Config, feed: map<nat, Blob>, after: nat, previous: Digest, page: seq<Record>, i: nat)
    requires i < |page|
  {
    && FileAt(config, feed, after + 1 + i) == Some(page[i])
    && Get(page[i].event, "previous") == Hex(if i == 0 then previous else page[i - 1].digest)
  }

  ghost predicate Follows(config: Config, feed: map<nat, Blob>, after: nat, previous: Digest, page: seq<Record>) {
    forall i {:trigger LinkAt(config, feed, after, previous, page, i)} :: 0 <= i < |page| ==>
      LinkAt(config, feed, after, previous, page, i)
  }

  /** The page size a caller asks for; by default the channel's. */
  function SizeOf(config: Config, limit: Option<int>): int {
    if limit.Some? then limit.value else config.pageSize
  }

  predicate GoodLimit(config: Config, limit: Option<int>) {
    limit.Some? ==> 1 <= limit.value <= config.pageSize
  }

  function DigestBefore(config: Config, feed: map<nat, Blob>, after: nat): Option<Digest> {
    if after == 0 then Some(Zeros)
    else match FileAt(config, feed, after) case Some(r) => Some(r.digest) case None => None
  }

  function LastOf(previous: Digest, page: seq<Record>): Digest {
    if page == [] then previous else page[|page| - 1].digest
  }

  /** What a successful read of one page means. */
  ghost predicate PageIs(config: Config, feed: map<nat, Blob>, head: Option<Blob>, after: nat, limit: nat, page: seq<Record>) {
    match head
    case None => after == 0 && page == []
    case Some(body) =>
      match DecodeHead(config, body)
      case None => false
      case Some(h) =>
        && after <= h.n
        && DigestBefore(config, feed, after).Some?
        && |page| == Min(h.n - after, limit)
        && Follows(config, feed, after, DigestBefore(config, feed, after).value, page)
        && (after + |page| == h.n ==> Hex(LastOf(DigestBefore(config, feed, after).value, page)) == h.sha)
  }

  lemma FollowsUnique(config: Config, feed: map<nat, Blob>, after: nat, previous: Digest, a: seq<Record>, b: seq<Record>)
    requires Follows(config, feed, after, previous, a) && Follows(config, feed, after, previous, b)
    requires |a| <= |b|
    ensures a == b[..|a|]
  {
    forall i | 0 <= i < |a| ensures a[i] == b[i] {
      assert LinkAt(config, feed, after, previous, a, i) && LinkAt(config, feed, after, previous, b, i);
    }
  }

  lemma NextLink(config: Config, feed: map<nat, Blob>, after: nat, previous: Digest, a: seq<Record>, b: seq<Record>)
    requires Follows(config, feed, after, previous, a) && Follows(config, feed, after, previous, b)
    requires |a| < |b|
    ensures FileAt(config, feed, after + 1 + |a|).Some?
    ensures Get(FileAt(config, feed, after + 1 + |a|).value.event, "previous") == Hex(LastOf(previous, a))
  {
    hide DecodeEvent;
    FollowsUnique(config, feed, after, previous, a, b);
    assert LinkAt(config, feed, after, previous, b, |a|);
  }

  lemma FollowsMore(config: Config, feed: map<nat, Blob>, after: nat, previous: Digest, page: seq<Record>, record: Record)
    requires Follows(config, feed, after, previous, page)
    requires FileAt(config, feed, after + 1 + |page|) == Some(record)
    requires Get(record.event, "previous") == Hex(LastOf(previous, page))
    ensures Follows(config, feed, after, previous, page + [record])
  {
    hide DecodeEvent, FileAt;
    forall i | 0 <= i < |page| + 1 ensures LinkAt(config, feed, after, previous, page + [record], i) {
      assert i < |page| ==> LinkAt(config, feed, after, previous, page, i);
    }
  }

  /** Reads at most one page after the cursor; it succeeds exactly when the page is
      there, valid, chained, and bound to HEAD if it reaches HEAD. */
  method ReadEvents(config: Config, feed: map<nat, Blob>, head: Option<Blob>, after: int, limit: Option<int>)
    returns (r: Result<seq<Record>, FeedError>)
    requires ValidConfig(config)
    ensures r.Success? ==>
              && 0 <= after <= config.maxEvents
              && GoodLimit(config, limit)
              && PageIs(config, feed, head, after, SizeOf(config, limit), r.value)
    ensures r.Failure? && 0 <= after <= config.maxEvents && GoodLimit(config, limit) ==>
              forall page {:trigger PageIs(config, feed, head, after, SizeOf(config, limit), page)} ::
                !PageIs(config, feed, head, after, SizeOf(config, limit), page)
  {
    hide DecodeEvent, DecodeHead;
    if !(0 <= after <= config.maxEvents) { return Failure(BadCursor); }
    if !GoodLimit(config, limit) { return Failure(BadLimit); }
    var size: nat := SizeOf(config, limit);
    if head.None? { return if after > 0 then Failure(HeadMissing) else Success([]); }
    var parsed := DecodeHead(config, head.value);
    if parsed.None? { return Failure(HeadInvalid); }
    var last := parsed.value.n;
    if after > last { return Failure(HeadRegressed); }
    var previous := Zeros;
    if after > 0 {
      var at := FileAt(config, feed, after);
      if at.None? { return Failure(EventInvalid); }
      previous := at.value.digest;
    }
    ghost var first := previous;
    var result := [];
    var n := after + 1;
    while n <= Min(last, after + size)
      invariant after + 1 <= n <= Min(last, after + size) + 1
      invariant |result| == n - after - 1
      invariant Follows(config, feed, after, first, result)
      invariant previous == LastOf(first, result)
    {
      var record := FileAt(config, feed, n);
      if record.None? || Get(record.value.event, "previous") != Hex(previous) {
        forall page ensures !PageIs(config, feed, head, after, size, page) {
          if PageIs(config, feed, head, after, size, page) {
            NextLink(config, feed, after, first, result, page);
          }
        }
        return Failure(if record.None? then EventInvalid else ChainBroken);
      }
      FollowsMore(config, feed, after, first, result, record.value);
      previous := record.value.digest;
      result := result + [record.value];
      n := n + 1;
    }
    if after + |result| == last && Hex(previous) != parsed.value.sha {
      forall page ensures !PageIs(config, feed, head, after, size, page) {
        if PageIs(config, feed, head, after, size, page) {
          FollowsUnique(config, feed, after, first, result, page);
        }
      }
      return Failure(HeadMismatch);
    }
    return Success(result);
  }

  // ------------------------------------------------------------ authenticity

  function RecordOf(config: Config, e: Event): Record {
    Record(EventJson(config, e).fields, EventDigest(config, e))
  }

  /** The decoded journal. */
  function Genuine(config: Config, events: seq<Event>): (r: seq<Record>)
    ensures |r| == |events|
    ensures forall i :: 0 <= i < |r| ==> r[i] == RecordOf(config, events[i])
  {
    if events == [] then []
    else Genuine(config, events[..|events| - 1]) + [RecordOf(config, events[|events| - 1])]
  }

  lemma DecodedDigest(config: Config, feed: map<nat, Blob>, n: nat)
    requires FileAt(config, feed, n).Some?
    ensures FileAt(config, feed, n).value.digest == Sha(Canon(Obj(FileAt(config, feed, n).value.event)))
  {
  }

  lemma PreviousOf(config: Config, events: seq<Event>, i: nat)
    requires History(config, events) && i < |events|
    ensures Get(RecordOf(config, events[i]).event, "previous") == Hex(if i == 0 then Zeros else EventDigest(config, events[i - 1]))
  {
    HistoryAt(config, events, i);
  }

  /** Backward along the hash chain: records that end in a genuine digest are genuine,
      and so is the digest they start from. */
  lemma {:induction false} ChainIsGenuine(config: Config, events: seq<Event>, feed: map<nat, Blob>, after: nat, previous: Digest, page: seq<Record>)
    requires History(config, events) && after + |page| <= |events|
    requires Follows(config, feed, after, previous, page)
    requires LastOf(previous, page) == LastDigest(config, events[..after + |page|])
    ensures page == Genuine(config, events)[after..after + |page|]
    ensures previous == LastDigest(config, events[..after])
    decreases |page|
  {
    hide EventJson, History, DecodeEvent;
    if page != [] {
      var i := |page| - 1;
      var n := after + i;
      assert LinkAt(config, feed, after, previous, page, i);
      DecodedDigest(config, feed, n + 1);
      assert events[..n + 1][n] == events[n];
      assert EventJson(config, events[n]) == Obj(page[i].event) by { SameEvent(config, events[n], page[i]); }
      PreviousOf(config, events, n);
      assert LastDigest(config, events[..n]) == (if n == 0 then Zeros else EventDigest(config, events[n - 1]));
      assert page[i] == RecordOf(config, events[n]);
      ChainStep(config, events, feed, after, previous, page);
      ChainIsGenuine(config, events, feed, after, previous, page[..i]);
      assert page == page[..i] + [page[i]];
    }
  }

  lemma SameEvent(config: Config, e: Event, r: Record)
    requires r.digest == Sha(Canon(Obj(r.event))) && r.digest == EventDigest(config, e)
    ensures EventJson(config, e) == Obj(r.event)
  {
  }

  lemma ChainStep(config: Config, events: seq<Event>, feed: map<nat, Blob>, after: nat, previous: Digest, page: seq<Record>)
    requires page != [] && after + |page| <= |events|
    requires Follows(config, feed, after, previous, page)
    requires Get(page[|page| - 1].event, "previous") == Hex(LastDigest(config, events[..after + |page| - 1]))
    ensures Follows(config, feed, after, previous, page[..|page| - 1])
    ensures LastOf(previous, page[..|page| - 1]) == LastDigest(config, events[..after + |page| - 1])
  {
    hide EventJson, DecodeEvent;
    var i := |page| - 1;
    assert LinkAt(config, feed, after, previous, page, i);
    forall k | 0 <= k < i ensures LinkAt(config, feed, after, previous, page[..i], k) {
      assert LinkAt(config, feed, after, previous, page, k);
    }
  }

  /** The HEAD file the broker writes for the first k events. */
  function BrokerHead(config: Config, events: seq<Event>, k: nat): Option<Blob>
    requires k <= |events|
  {
    if k == 0 then None else Some(HeadBlob(config, Head(k, EventDigest(config, events[k - 1]))))
  }

  lemma HeadDecodes(config: Config, events: seq<Event>, k: nat)
    requires 1 <= k <= |events| <= config.maxEvents
    ensures DecodeHead(config, BrokerHead(config, events, k).value) == Some(HeadFile(k, Hex(EventDigest(config, events[k - 1]))))
  {
    hide EventJson;
    var f := ParseObject(BrokerHead(config, events, k).value).value;
    assert f.Keys == {"channel", "seq", "sha256"};
  }

  /** The journal's events after the cursor, in order. */
  ghost predicate GenuinePage(config: Config, events: seq<Event>, after: nat, page: seq<Record>) {
    after + |page| <= |events| && page == Genuine(config, events)[after..after + |page|]
  }

  /** A page that reaches a HEAD the broker wrote is genuine, whatever the files hold. */
  lemma PageAtHeadIsGenuine(config: Config, events: seq<Event>, k: nat, feed: map<nat, Blob>, after: nat, limit: nat, page: seq<Record>)
    requires History(config, events) && k <= |events| <= config.maxEvents
    requires PageIs(config, feed, BrokerHead(config, events, k), after, limit, page)
    requires after <= k <= after + limit
    ensures page == Genuine(config, events)[after..k]
    ensures GenuinePage(config, events, after, page)
  {
    hide EventJson, DecodeEvent, DecodeHead;
    if k > 0 {
      HeadDecodes(config, events, k);
      assert LastDigest(config, events[..k]) == EventDigest(config, events[k - 1]);
      ChainIsGenuine(config, events, feed, after, DigestBefore(config, feed, after).value, page);
    }
  }

  lemma EnvelopeDecodes(config: Config, e: Event)
    ensures DecodeEvent(config, Channel.Envelope(config, e), e.n) == Some(RecordOf(config, e))
  {
    var record := ParseObject(Channel.Envelope(config, e)).value;
    assert record.Keys == {"event", "sha256"};
  }

  /** In every state the fan-out reaches, every page of every mailbox up to the HEAD it
      shows can be read, and is the journal's. */
  lemma MailboxReads(config: Config, s: Fan, p: nat, after: nat, limit: nat)
    requires Inv(config, s) && History(config, s.events) && |s.events| <= config.maxEvents && p < |s.boxes|
    requires after <= HeadNumber(s.boxes[p].head) && limit > 0
    ensures HeadNumber(s.boxes[p].head) <= |s.events|
    ensures var k := HeadNumber(s.boxes[p].head);
            PageIs(config, s.boxes[p].feed, BrokerHead(config, s.events, k), after, limit,
                   Genuine(config, s.events)[after..after + Min(k - after, limit)])
  {
    hide EventJson, DecodeEvent, DecodeHead, History, Channel.Envelope, HeadBlob, FileAt, BoxInv, Genuine, Spread, UpTo;
    var k := HeadNumber(s.boxes[p].head);
    assert HeadInv(config, s, s.boxes[p], Spread(s));
    if k > 0 {
      HeadDecodes(config, s.events, k);
      CleanFollows(config, s, p, after, Min(k - after, limit));
    }
  }

  lemma CleanFollows(config: Config, s: Fan, p: nat, after: nat, count: nat)
    requires Inv(config, s) && History(config, s.events) && p < |s.boxes|
    requires after + count <= HeadNumber(s.boxes[p].head) <= |s.events|
    ensures DigestBefore(config, s.boxes[p].feed, after) == Some(LastDigest(config, s.events[..after]))
    ensures Follows(config, s.boxes[p].feed, after, LastDigest(config, s.events[..after]), Genuine(config, s.events)[after..after + count])
    ensures LastOf(LastDigest(config, s.events[..after]), Genuine(config, s.events)[after..after + count])
              == LastDigest(config, s.events[..after + count])
  {
    hide EventJson, DecodeEvent, History, Channel.Envelope, FileAt, Inv;
    var feed := s.boxes[p].feed;
    var page := Genuine(config, s.events)[after..after + count];
    if after > 0 { CleanFile(config, s, p, after - 1); }
    forall i | 0 <= i < |page| ensures LinkAt(config, feed, after, LastDigest(config, s.events[..after]), page, i) {
      CleanFile(config, s, p, after + i);
      PreviousOf(config, s.events, after + i);
    }
  }

  lemma CleanFile(config: Config, s: Fan, p: nat, i: nat)
    requires Inv(config, s) && History(config, s.events) && p < |s.boxes| && i < HeadNumber(s.boxes[p].head) <= |s.events|
    ensures FileAt(config, s.boxes[p].feed, i + 1) == Some(RecordOf(config, s.events[i]))
  {
    hide EventJson, DecodeEvent, DecodeHead, Channel.Envelope;
    assert HeadInv(config, s, s.boxes[p], Spread(s)) && BoxInv(config, s, s.boxes[p]);
    assert i + 1 in s.boxes[p].synced;
    HistoryAt(config, s.events, i);
    EnvelopeDecodes(config, s.events[i]);
  }

  // ------------------------------------------------------------ paging to HEAD

  /** Reads page after page from the start, each with its own HEAD and limit, until one
      ends at its HEAD, be it short or full. If that HEAD was written by the broker, what was
      read is exactly the journal's events 1..HEAD, in order, for every choice of page sizes. */
  method ReadAll(config: Config, feed: map<nat, Blob>, rounds: seq<(Option<Blob>, Option<int>)>, ghost events: seq<Event>)
    returns (r: Result<seq<Record>, FeedError>, caughtUp: bool, ghost last: Option<Blob>)
    requires ValidConfig(config) && History(config, events) && |events| <= config.maxEvents
    ensures caughtUp ==> r.Success?
    ensures r.Success? && !caughtUp && rounds != [] ==>
              && last == rounds[|rounds| - 1].0 && last.Some? && DecodeHead(config, last.value).Some?
              && |r.value| < DecodeHead(config, last.value).value.n
    ensures forall k :: caughtUp && 1 <= k <= |events| && last == BrokerHead(config, events, k) ==>
              r.value == Genuine(config, events[..k])
  {
    hide EventJson, DecodeEvent, DecodeHead, History;
    var all: seq<Record> := [];
    last := None;
    for i := 0 to |rounds|
      invariant Follows(config, feed, 0, Zeros, all)
      invariant i > 0 ==>
        && last == rounds[i - 1].0 && last.Some? && DecodeHead(config, last.value).Some?
        && |all| < DecodeHead(config, last.value).value.n
    {
      var head, limit := rounds[i].0, rounds[i].1;
      var page := ReadEvents(config, feed, head, |all|, limit);
      if page.Failure? { return Failure(page.error), false, head; }
      var size: nat := SizeOf(config, limit);
      FollowsAppend(config, feed, head, size, all, page.value);
      all := all + page.value;
      if head.None? || |all| == DecodeHead(config, head.value).value.n {
        forall k | 1 <= k <= |events| && head == BrokerHead(config, events, k)
          ensures all == Genuine(config, events[..k])
        {
          HeadDecodes(config, events, k);
          AllGenuine(config, events, feed, all, page.value, k, size);
        }
        return Success(all), true, head;
      }
      last := head;
    }
    return Success(all), false, last;
  }

  lemma FollowsAppend(config: Config, feed: map<nat, Blob>, head: Option<Blob>, limit: nat, all: seq<Record>, page: seq<Record>)
    requires Follows(config, feed, 0, Zeros, all) && PageIs(config, feed, head, |all|, limit, page)
    ensures Follows(config, feed, 0, Zeros, all + page)
  {
    hide DecodeEvent, DecodeHead;
    var both := all + page;
    forall i | 0 <= i < |both| ensures LinkAt(config, feed, 0, Zeros, both, i) {
      if i < |all| {
        assert LinkAt(config, feed, 0, Zeros, all, i);
      } else {
        assert LinkAt(config, feed, |all|, DigestBefore(config, feed, |all|).value, page, i - |all|);
        assert |all| > 0 ==> LinkAt(config, feed, 0, Zeros, all, |all| - 1);
      }
    }
  }

  lemma AllGenuine(config: Config, events: seq<Event>, feed: map<nat, Blob>, all: seq<Record>, page: seq<Record>, k: nat, limit: nat)
    requires History(config, events) && 1 <= k <= |events| <= config.maxEvents
    requires |page| <= |all| && Follows(config, feed, 0, Zeros, all) && page == all[|all| - |page|..]
    requires |all| == k && PageIs(config, feed, BrokerHead(config, events, k), |all| - |page|, limit, page)
    ensures all == Genuine(config, events[..k])
  {
    hide EventJson, DecodeEvent, DecodeHead, History;
    HeadDecodes(config, events, k);
    var before := DigestBefore(config, feed, |all| - |page|).value;
    assert LastOf(before, page) == LastOf(Zeros, all) by {
      if page == [] {
        assert LinkAt(config, feed, 0, Zeros, all, k - 1);
      }
    }
    assert LastDigest(config, events[..k]) == EventDigest(config, events[k - 1]);
    ChainIsGenuine(config, events, feed, 0, Zeros, all);
    assert Genuine(config, events)[0..k] == Genuine(config, events[..k]);
  }

  // ------------------------------------------------------------ pages that stop short

  /** A forgery of the journal: every event's clock is moved, and the hashes redone. */
  function Forged(config: Config, events: seq<Event>): (r: seq<Event>)
    ensures |r| == |events|
  {
    if events == [] then []
    else
      var past := Forged(config, events[..|events| - 1]);
      var e := events[|events| - 1];
      past + [e.(at := e.at + 1, previous := LastDigest(config, past))]
  }

  function ForgedFeed(config: Config, events: seq<Event>): map<nat, Blob> {
    var f := Forged(config, events);
    map n: nat | n in UpTo(|f|) && 1 <= n <= |f| :: Channel.Envelope(config, f[n - 1])
  }

  lemma {:induction false} ForgedFacts(config: Config, events: seq<Event>, i: nat)
    requires History(config, events) && i < |events|
    ensures Forged(config, events)[i] ==
              events[i].(at := events[i].at + 1, previous := LastDigest(config, Forged(config, events)[..i]))
    ensures Forged(config, events)[i].n == i + 1
    decreases |events|
  {
    hide EventJson, History;
    var past := events[..|events| - 1];
    HistoryPrefix(config, events, |events| - 1);
    HistoryAt(config, events, i);
    if i < |past| {
      ForgedFacts(config, past, i);
      assert Forged(config, events)[..i] == Forged(config, past)[..i];
    } else {
      assert Forged(config, events)[..i] == Forged(config, past);
    }
  }

  /** A page is genuine for every content of the files exactly when it reaches HEAD: a
      shorter page is only chained to itself, and HEAD does not vouch for it. */
  lemma PageGenuineIffAtHead(config: Config, events: seq<Event>, k: nat, after: nat, limit: nat)
    requires History(config, events) && after < k <= |events| <= config.maxEvents && limit > 0
    ensures (forall feed, page :: PageIs(config, feed, BrokerHead(config, events, k), after, limit, page) ==>
               GenuinePage(config, events, after, page))
            <==> k <= after + limit
  {
    hide EventJson, DecodeEvent, DecodeHead, History, Forged, ForgedFeed, Genuine, PageIs;
    if k <= after + limit {
      forall feed, page | PageIs(config, feed, BrokerHead(config, events, k), after, limit, page)
        ensures GenuinePage(config, events, after, page)
      {
        PageAtHeadIsGenuine(config, events, k, feed, after, limit, page);
      }
    } else {
      ForgedPage(config, events, k, after, limit);
      ForgedPageDiffers(config, events, after, limit);
      var feed, page := ForgedFeed(config, events), Genuine(config, Forged(config, events))[after..after + limit];
      assert PageIs(config, feed, BrokerHead(config, events, k), after, limit, page);
    }
  }

  lemma ForgedPageDiffers(config: Config, events: seq<Event>, after: nat, limit: nat)
    requires History(config, events) && after + limit <= |events| && limit > 0
    ensures Genuine(config, Forged(config, events))[after..after + limit] != Genuine(config, events)[after..after + limit]
  {
    hide EventJson, DecodeEvent, DecodeHead, History, Forged;
    ForgedFacts(config, events, after);
    ForgeryDiffers(config, events[after], Forged(config, events)[after]);
    assert Genuine(config, Forged(config, events))[after..after + limit][0] != Genuine(config, events)[after..after + limit][0];
  }

  lemma ForgeryDiffers(config: Config, e: Event, f: Event)
    requires f.at == e.at + 1
    ensures RecordOf(config, e) != RecordOf(config, f)
  {
    assert EventJson(config, e).fields["at_ns"] != EventJson(config, f).fields["at_ns"];
  }

  lemma ForgedPage(config: Config, events: seq<Event>, k: nat, after: nat, limit: nat)
    requires History(config, events) && after + limit < k <= |events| <= config.maxEvents && limit > 0
    ensures PageIs(config, ForgedFeed(config, events), BrokerHead(config, events, k), after, limit,
                   Genuine(config, Forged(config, events))[after..after + limit])
  {
    hide EventJson, DecodeEvent, DecodeHead, History, Forged, ForgedFeed, FileAt, Genuine, HeadBlob;
    HeadDecodes(config, events, k);
    var f := Forged(config, events);
    var feed := ForgedFeed(config, events);
    if after > 0 {
      ForgedFile(config, events, after - 1);
    }
    ForgedFollows(config, events, after, limit);
  }

  lemma ForgedFollows(config: Config, events: seq<Event>, after: nat, limit: nat)
    requires History(config, events) && after + limit <= |events|
    ensures DigestBefore(config, ForgedFeed(config, events), after) == Some(LastDigest(config, Forged(config, events)[..after]))
    ensures Follows(config, ForgedFeed(config, events), after, LastDigest(config, Forged(config, events)[..after]),
                    Genuine(config, Forged(config, events))[after..after + limit])
  {
    hide EventJson, DecodeEvent, DecodeHead, History, Forged, ForgedFeed, FileAt, Genuine;
    var f := Forged(config, events);
    var feed := ForgedFeed(config, events);
    var page := Genuine(config, f)[after..after + limit];
    if after > 0 {
      ForgedFile(config, events, after - 1);
    }
    forall i | 0 <= i < |page| ensures LinkAt(config, feed, after, LastDigest(config, f[..after]), page, i) {
      ForgedFile(config, events, after + i);
      assert after + i > 0 ==> f[..after + i][after + i - 1] == f[after + i - 1];
    }
  }

  lemma ForgedFile(config: Config, events: seq<Event>, i: nat)
    requires History(config, events) && i < |events|
    ensures FileAt(config, ForgedFeed(config, events), i + 1) == Some(RecordOf(config, Forged(config, events)[i]))
    ensures Get(RecordOf(config, Forged(config, events)[i]).event, "previous") == Hex(LastDigest(config, Forged(config, events)[..i]))
  {
    hide DecodeEvent, History;
    ForgedFacts(config, events, i);
    EnvelopeDecodes(config, Forged(config, events)[i]);
    assert i + 1 in UpTo(|Forged(config, events)|);
  }
}

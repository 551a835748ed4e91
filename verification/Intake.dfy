/** Where the bridge's intake meets the broker's mailboxes: the page that the reader of a
    mailbox returns is the stretch of the journal that the bridge applies. */
module Intake {
  import opened Wrappers
  import opened Wire
  import opened Channel
  import opened Ledger
  import opened Fanout
  import opened Feed
  import B = Bridge

  lemma GenuineSlice(config: Config, events: seq<Event>, a: nat, b: nat)
    requires a <= b <= |events|
    ensures Genuine(config, events)[a..b] == Genuine(config, events[a..b])
  {
    hide EventJson, EventDigest;
  }

  lemma PageIsUnique(config: Config, feed: map<nat, Blob>, head: Option<Blob>, after: nat, limit: nat, a: seq<Record>, b: seq<Record>)
    requires PageIs(config, feed, head, after, limit, a) && PageIs(config, feed, head, after, limit, b)
    ensures a == b
  {
    hide DecodeEvent, DecodeHead, FileAt;
    if head.Some? {
      FollowsUnique(config, feed, after, DigestBefore(config, feed, after).value, a, b);
    }
  }

  /** The group's journal keeps its invariant. */
  lemma JournalIsHistory(b: B.Bridge)
    requires b.Valid()
    ensures ValidConfig(b.config) && History(b.config, b.log.events) && |b.log.events| <= b.config.maxEvents && b.cursor <= |b.log.events|
  {
    hide Decode, History, B.Bridge.Traced, B.Lists;
    b.Reachable();
  }

  /** A mailbox of any reachable fan-out of this journal whose HEAD is the one the bridge
      sees: its reader fails exactly when that HEAD is behind the cursor, and otherwise
      returns the events that the next page of the bridge's intake applies. */
  method ReadPage(b: B.Bridge, s: Fan, p: nat) returns (r: Result<seq<Record>, FeedError>)
    requires b.Valid() && Inv(b.config, s) && s.events == b.log.events && p < |s.boxes|
    requires HeadNumber(s.boxes[p].head) == b.visible <= |s.events|
    ensures r.Failure? <==> b.visible < b.cursor
    ensures r.Success? ==> b.PageEnd(b.cursor, b.visible) <= |b.log.events|
                           && r.value == Genuine(b.config, b.log.events[b.cursor..b.PageEnd(b.cursor, b.visible)])
  {
    hide *;
    JournalIsHistory(b);
    var feed, head := s.boxes[p].feed, BrokerHead(b.config, s.events, b.visible);
    r := ReadEvents(b.config, feed, head, b.cursor, None);
    Sizes(b.config);
    b.PageEndIs(b.cursor, b.visible);
    if b.cursor <= b.visible {
      MailboxReads(b.config, s, p, b.cursor, b.config.pageSize);
      ghost var end := b.PageEnd(b.cursor, b.visible);
      ghost var page := Genuine(b.config, b.log.events[b.cursor..end]);
      GenuineSlice(b.config, s.events, b.cursor, end);
      MinIs(b.visible - b.cursor, b.config.pageSize);
      assert PageIs(b.config, feed, head, b.cursor, b.config.pageSize, page);
      if r.Success? { PageIsUnique(b.config, feed, head, b.cursor, b.config.pageSize, r.value, page); }
    } else if r.Success? {
      BehindIsNoPage(b.config, s.events, feed, b.visible, b.cursor, b.config.pageSize, r.value);
    }
  }

  lemma Sizes(config: Config)
    requires ValidConfig(config)
    ensures SizeOf(config, None) == config.pageSize > 0 && GoodLimit(config, None)
  {
  }

  lemma MinIs(a: int, b: int)
    ensures Min(a, b) == if a <= b then a else b
  {
  }

  lemma BehindIsNoPage(config: Config, events: seq<Event>, feed: map<nat, Blob>, k: nat, after: nat, limit: nat, page: seq<Record>)
    requires k <= |events| <= config.maxEvents && k < after
    ensures !PageIs(config, feed, BrokerHead(config, events, k), after, limit, page)
  {
    hide EventDigest, DecodeEvent;
    if k > 0 { HeadDecodes(config, events, k); }
  }
}

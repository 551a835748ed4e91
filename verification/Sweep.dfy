/** Selecting the earliest result of a task: validation of messages, a reply sweep that
    resumes across rounds, and the moment a result may be committed. */
module Sweep {
  import opened Wrappers
  import opened Channel
  import opened Rows

  // ------------------------------------------------------------ order

  predicate Before(a: Candidate, b: Candidate) {
    match (a.created, b.created)
    case (At(s), At(t)) => s < t || (s == t && a.id < b.id)
    case (At(_), Unknown) => true
    case (Unknown, At(_)) => false
    case (Unknown, Unknown) => a.id < b.id
  }

  /** The earlier of two candidates; the left one on a tie. */
  function Earliest(left: Option<Candidate>, right: Option<Candidate>): Option<Candidate> {
    if left.None? then right
    else if right.None? then left
    else if Before(right.value, left.value) then right
    else left
  }

  function Best(found: seq<Candidate>): Option<Candidate> {
    if found == [] then None else Earliest(Best(found[..|found| - 1]), Some(found[|found| - 1]))
  }

  /** The selection is a minimum by creation time, then by numeric identity. */
  lemma {:induction false} BestIsMinimum(found: seq<Candidate>)
    ensures Best(found).None? <==> found == []
    ensures Best(found).Some? ==> Best(found).value in found
    ensures Best(found).Some? ==> forall c :: c in found ==> !Before(c, Best(found).value)
  {
    if found != [] {
      var init := found[..|found| - 1];
      BestIsMinimum(init);
      assert found == init + [found[|found| - 1]];
    }
  }

  lemma {:induction false} BestOfBoth(a: seq<Candidate>, b: seq<Candidate>)
    ensures Best(a + b) == Earliest(Best(a), Best(b))
  {
    if b == [] {
      assert a + b == a;
    } else {
      BestOfBoth(a, b[..|b| - 1]);
      assert (a + b)[..|a + b| - 1] == a + b[..|b| - 1];
    }
  }

  // ------------------------------------------------------------ messages

  datatype Header = Header(task: string, dispatch: nat, status: Verdict)

  /** What a Teams message tells: its numeric identity if well formed, whether it is an
      undeleted plain message of the configured channel, its sender, its thread, the result
      header its text starts with, if any, and the dispatch identities in its first lines. */
  datatype Message = Message(
    id: Option<nat>,
    plain: bool,
    here: bool,
    sender: Option<string>,
    replyTo: Option<nat>,
    header: Option<Header>,
    dispatches: seq<nat>,
    created: Stamp,
    text: string)

  /** What one row accepts as its results: the configured responder, the thread, and the
      row's task and dispatch identity. */
  datatype Lens = Lens(responder: string, replyTo: Option<nat>, task: string, dispatch: nat)

  predicate Matches(lens: Lens, m: Message) {
    && m.id.Some? && m.plain && m.here && m.sender == Some(lens.responder) && m.replyTo == lens.replyTo
    && m.header.Some? && m.header.value.task == lens.task && m.header.value.dispatch == lens.dispatch
  }

  function AsCandidate(m: Message): Candidate
    requires m.id.Some? && m.header.Some?
  {
    Candidate(m.id.value, m.created, m.header.value.status, m.text)
  }

  function Results(lens: Lens, messages: seq<Message>): seq<Candidate> {
    if messages == [] then []
    else
      var last := messages[|messages| - 1];
      Results(lens, messages[..|messages| - 1]) + (if Matches(lens, last) then [AsCandidate(last)] else [])
  }

  lemma {:induction false} ResultsOfBoth(lens: Lens, a: seq<Message>, b: seq<Message>)
    ensures Results(lens, a + b) == Results(lens, a) + Results(lens, b)
  {
    if b == [] {
      assert a + b == a;
    } else {
      ResultsOfBoth(lens, a, b[..|b| - 1]);
      assert (a + b)[..|a + b| - 1] == a + b[..|b| - 1];
    }
  }

  /** The message tells this result of a dispatched task: it is an undeleted plain message
      of the channel, from the responder and in the thread, and its header names the task,
      its dispatch identity and the outcome. */
  predicate Tells(m: Message, responder: string, replyTo: Option<nat>, task: string, dispatch: nat, c: Candidate) {
    && m.id == Some(c.id) && m.created == c.created && m.text == c.text
    && m.plain && m.here && m.sender == Some(responder) && m.replyTo == replyTo
    && m.header == Some(Header(task, dispatch, c.status))
  }

  /** The results in some messages are exactly what they tell. */
  lemma {:induction false} ResultsAreTold(lens: Lens, messages: seq<Message>, c: Candidate)
    ensures c in Results(lens, messages) <==>
              exists m :: m in messages && Tells(m, lens.responder, lens.replyTo, lens.task, lens.dispatch, c)
  {
    if messages != [] {
      var init, last := messages[..|messages| - 1], messages[|messages| - 1];
      ResultsAreTold(lens, init, c);
      assert messages == init + [last];
      assert Tells(last, lens.responder, lens.replyTo, lens.task, lens.dispatch, c) <==> Matches(lens, last) && AsCandidate(last) == c;
      assert forall m :: m in messages <==> m in init || m == last;
    }
  }

  /** Of the results that some messages tell, the selected one is none later. */
  lemma {:induction false} SelectedIsTold(lens: Lens, messages: seq<Message>)
    ensures Best(Results(lens, messages)).Some? ==>
              exists m :: m in messages && Tells(m, lens.responder, lens.replyTo, lens.task, lens.dispatch, Best(Results(lens, messages)).value)
    ensures forall m, c :: m in messages && Tells(m, lens.responder, lens.replyTo, lens.task, lens.dispatch, c) ==>
              Best(Results(lens, messages)).Some? && !Before(c, Best(Results(lens, messages)).value)
  {
    hide Results, Best, Before, Tells;
    var found := Results(lens, messages);
    BestIsMinimum(found);
    if Best(found).Some? { ResultsAreTold(lens, messages, Best(found).value); }
    forall m, c | m in messages && Tells(m, lens.responder, lens.replyTo, lens.task, lens.dispatch, c)
      ensures Best(found).Some? && !Before(c, Best(found).value)
    {
      ResultsAreTold(lens, messages, c);
    }
  }

  /** A row that takes results from this thread. */
  predicate Takes(rows: map<string, Row>, replyTo: Option<nat>, task: string) {
    && task in rows && rows[task].teams.dispatch.Some? && Active(rows[task].phase)
    && (replyTo.None? || rows[task].teams.messageId == replyTo)
  }

  function Lookup(best: map<string, Candidate>, task: string): Option<Candidate> {
    if task in best then Some(best[task]) else None
  }

  /** The earliest valid result per task among the messages. Dispatch identities are
      unique, so a header names at most one row. */
  method Candidates(rows: map<string, Row>, responder: string, messages: seq<Message>, replyTo: Option<nat>)
      returns (best: map<string, Candidate>)
    ensures forall task :: Takes(rows, replyTo, task) ==>
              Lookup(best, task) == Best(Results(Lens(responder, replyTo, task, rows[task].teams.dispatch.value), messages))
    ensures forall task :: task in best ==>
              && Takes(rows, replyTo, task)
              && exists m :: m in messages && Tells(m, responder, replyTo, task, rows[task].teams.dispatch.value, best[task])
    ensures forall task, m, c :: Takes(rows, replyTo, task) && m in messages && Tells(m, responder, replyTo, task, rows[task].teams.dispatch.value, c) ==>
              task in best && !Before(c, best[task])
  {
    best := map[];
    for i := 0 to |messages|
      invariant forall task :: Takes(rows, replyTo, task) ==>
        Lookup(best, task) == Best(Results(Lens(responder, replyTo, task, rows[task].teams.dispatch.value), messages[..i]))
      invariant forall task :: task in best ==> Takes(rows, replyTo, task)
    {
      ghost var before := best;
      var m := messages[i];
      if m.id.Some? && m.plain && m.here && m.sender == Some(responder) && m.replyTo == replyTo && m.header.Some? {
        var task := m.header.value.task;
        if task in rows && rows[task].teams.dispatch == Some(m.header.value.dispatch)
           && Active(rows[task].phase) && (replyTo.None? || rows[task].teams.messageId == replyTo)
        {
          best := best[task := Earliest(Lookup(best, task), Some(AsCandidate(m))).value];
        }
      }
      assert messages[..i + 1][..i] == messages[..i];
      forall t | Takes(rows, replyTo, t)
        ensures Lookup(best, t) == Best(Results(Lens(responder, replyTo, t, rows[t].teams.dispatch.value), messages[..i + 1]))
      {
        var lens := Lens(responder, replyTo, t, rows[t].teams.dispatch.value);
        var past := Results(lens, messages[..i]);
        assert Lookup(before, t) == Best(past);
        if Matches(lens, m) {
          assert (past + [AsCandidate(m)])[..|past|] == past;
        } else {
          assert past + [] == past;
        }
      }
    }
    assert messages[..|messages|] == messages;
    forall task | Takes(rows, replyTo, task)
      ensures task in best ==> exists m :: m in messages && Tells(m, responder, replyTo, task, rows[task].teams.dispatch.value, best[task])
      ensures forall m, c :: m in messages && Tells(m, responder, replyTo, task, rows[task].teams.dispatch.value, c) ==>
                task in best && !Before(c, best[task])
    {
      SelectedIsTold(Lens(responder, replyTo, task, rows[task].teams.dispatch.value), messages);
    }
  }

  // ------------------------------------------------------------ the bridge's own posts

  /** A root message of the bridge account that carries the dispatch identity. */
  predicate IsPost(account: string, m: Message, dispatch: nat) {
    m.id.Some? && m.replyTo.None? && m.sender == Some(account) && dispatch in m.dispatches
  }

  /** The first root that carries the identity. */
  function PostOf(account: string, roots: seq<Message>, dispatch: nat): (id: Option<nat>)
    ensures id.Some? <==> exists i :: 0 <= i < |roots| && IsPost(account, roots[i], dispatch)
    ensures id.Some? ==> exists i :: 0 <= i < |roots| && IsPost(account, roots[i], dispatch) && roots[i].id == id
                                     && forall j :: 0 <= j < i ==> !IsPost(account, roots[j], dispatch)
  {
    if roots == [] then None
    else
      var init, last := roots[..|roots| - 1], roots[|roots| - 1];
      var before := PostOf(account, init, dispatch);
      assert forall i :: 0 <= i < |init| ==> init[i] == roots[i];
      if before.Some? then before else if IsPost(account, last, dispatch) then last.id else None
  }

  /** Notes a message under its identities, unless they have one. */
  method Note(found: map<nat, nat>, dispatches: seq<nat>, id: nat) returns (more: map<nat, nat>)
    ensures forall d :: d in more <==> d in found || d in dispatches
    ensures forall d :: d in more ==> more[d] == if d in found then found[d] else id
  {
    more := found;
    for j := 0 to |dispatches|
      invariant forall d :: d in more <==> d in found || d in dispatches[..j]
      invariant forall d :: d in more ==> more[d] == if d in found then found[d] else id
    {
      if dispatches[j] !in more { more := more[dispatches[j] := id]; }
    }
    assert dispatches[..|dispatches|] == dispatches;
  }

  lemma PostAppend(account: string, roots: seq<Message>, m: Message, d: nat)
    ensures PostOf(account, roots + [m], d) ==
              if PostOf(account, roots, d).Some? then PostOf(account, roots, d) else if IsPost(account, m, d) then m.id else None
    ensures PostOf(account, [], d) == None
  {
    assert (roots + [m])[..|roots|] == roots;
  }

  /** The roots by the dispatch identities they carry; the first one of an identity stays. */
  method FindPosts(account: string, roots: seq<Message>) returns (found: map<nat, nat>)
    ensures forall d {:trigger PostOf(account, roots, d)} :: PostOf(account, roots, d) == if d in found then Some(found[d]) else None
    ensures forall d :: d in found ==>
              exists m :: m in roots && m.id == Some(found[d]) && m.replyTo.None? && m.sender == Some(account) && d in m.dispatches
    ensures forall d, m :: m in roots && m.id.Some? && m.replyTo.None? && m.sender == Some(account) && d in m.dispatches ==> d in found
  {
    hide PostOf;
    found := map[];
    assert roots[..0] == [];
    forall d ensures PostOf(account, roots[..0], d) == None { PostAppend(account, [], Message(None, false, false, None, None, None, [], Unknown, ""), d); }
    for i := 0 to |roots|
      invariant forall d {:trigger PostOf(account, roots[..i], d)} :: PostOf(account, roots[..i], d) == if d in found then Some(found[d]) else None
    {
      var m := roots[i];
      ghost var before := found;
      assert roots[..i + 1] == roots[..i] + [m];
      if m.id.Some? && m.replyTo.None? && m.sender == Some(account) {
        found := Note(found, m.dispatches, m.id.value);
      }
      forall d ensures PostOf(account, roots[..i + 1], d) == if d in found then Some(found[d]) else None {
        PostAppend(account, roots[..i], m, d);
        assert PostOf(account, roots[..i], d) == if d in before then Some(before[d]) else None;
      }
    }
    assert roots[..|roots|] == roots;
    forall d: nat
      ensures d in found ==>
                exists m :: m in roots && m.id == Some(found[d]) && m.replyTo.None? && m.sender == Some(account) && d in m.dispatches
      ensures forall m :: m in roots && m.id.Some? && m.replyTo.None? && m.sender == Some(account) && d in m.dispatches ==> d in found
    {
      assert PostOf(account, roots, d) == if d in found then Some(found[d]) else None;
      forall m | m in roots && IsPost(account, m, d) ensures d in found {
        var i :| 0 <= i < |roots| && roots[i] == m;
      }
    }
  }

  // ------------------------------------------------------------ one round of one task

  /** The answer to one read of a reply page; cursor 0 is the first page of a thread. */
  datatype Page = Page(values: seq<Message>, next: Option<nat>) | Unreadable

  datatype Swept = Swept(best: Option<Candidate>, cursor: Option<nat>) | Broken

  /** Reading on from a cursor until the pages or the round's allowance end. */
  function Read(lens: Lens, answers: seq<Page>, cursor: nat, best: Option<Candidate>): Swept {
    if answers == [] then Swept(best, Some(cursor))
    else
      match answers[0]
      case Unreadable => Broken
      case Page(values, next) =>
        var merged := Earliest(best, Best(Results(lens, values)));
        if next.None? then Swept(merged, None) else Read(lens, answers[1..], next.value, merged)
  }

  /** Reads on page by page, merging each page's earliest result. */
  method ReadPages(rows: map<string, Row>, responder: string, task: string, answers: seq<Page>, start: nat, first: Option<Candidate>)
      returns (swept: Swept)
    requires task in rows && rows[task].teams.messageId.Some? && Takes(rows, rows[task].teams.messageId, task)
    ensures swept == Read(Lens(responder, rows[task].teams.messageId, task, rows[task].teams.dispatch.value), answers, start, first)
  {
    hide Best, Results, Earliest;
    ghost var lens := Lens(responder, rows[task].teams.messageId, task, rows[task].teams.dispatch.value);
    var best, cursor := first, start;
    for i := 0 to |answers|
      invariant Read(lens, answers[i..], cursor, best) == Read(lens, answers, start, first)
    {
      assert answers[i..][0] == answers[i] && answers[i..][1..] == answers[i + 1..];
      if answers[i].Unreadable? { return Broken; }
      var found := Candidates(rows, responder, answers[i].values, rows[task].teams.messageId);
      best := Earliest(best, Lookup(found, task));
      if answers[i].next.None? { return Swept(best, None); }
      cursor := answers[i].next.value;
    }
    return Swept(best, Some(cursor));
  }

  /** What a task remembers between rounds, and its result once committed. */
  datatype Hunt = Hunt(cursor: Option<nat>, candidate: Option<Candidate>, result: Option<Candidate>)

  function StartOf(hunt: Hunt): nat {
    if hunt.cursor.Some? then hunt.cursor.value else 0
  }

  /** A round: merge this round's root result, sweep on if the task has a thread, and
      commit only a complete sweep in a round whose root scan succeeded. A failed read
      forgets the sweep. */
  function Round(lens: Lens, linked: bool, hunt: Hunt, root: Option<Candidate>, scanned: bool, answers: seq<Page>): Hunt {
    var best := Earliest(hunt.candidate, root);
    match (if linked then Read(lens, answers, StartOf(hunt), best) else Swept(best, None))
    case Broken => Hunt(None, None, None)
    case Swept(all, cursor) =>
      if cursor.Some? || (all.Some? && !scanned) then Hunt(cursor, all, None)
      else Hunt(None, None, all)
  }

  /** The row's lens on its thread or, without one, on the roots. */
  function LensOf(responder: string, task: string, row: Row): Lens
    requires row.teams.dispatch.Some?
  {
    Lens(responder, row.teams.messageId, task, row.teams.dispatch.value)
  }

  function HuntOf(row: Row): Hunt {
    Hunt(row.teams.replyCursor, row.teams.candidate, None)
  }

  function AfterHunt(row: Row, hunt: Hunt): Row {
    row.(phase := if hunt.result.Some? then Resulted else row.phase,
         teams := row.teams.(result := if hunt.result.Some? then hunt.result else row.teams.result,
                             replyCursor := hunt.cursor, candidate := hunt.candidate))
  }

  /** The row after a round. */
  function Turned(responder: string, task: string, row: Row, root: Option<Candidate>, scanned: bool, answers: seq<Page>): Row
    requires row.teams.dispatch.Some?
  {
    AfterHunt(row, Round(LensOf(responder, task, row), row.teams.messageId.Some?, HuntOf(row), root, scanned, answers))
  }

  /** A round changes the sweep's own columns, and the phase once there is a result. */
  lemma TurnedFacts(responder: string, task: string, row: Row, root: Option<Candidate>, scanned: bool, answers: seq<Page>)
    requires row.teams.dispatch.Some?
    ensures var row' := Turned(responder, task, row, root, scanned, answers);
            && row' == row.(phase := row'.phase, teams := row'.teams)
            && row'.teams == row.teams.(result := row'.teams.result, replyCursor := row'.teams.replyCursor, candidate := row'.teams.candidate)
            && (row'.phase == row.phase || (row'.phase == Resulted && row'.teams.result.Some?))
            && (row'.phase != Resulted ==> row'.teams.result == row.teams.result)
  {
    hide Round;
  }

  // ------------------------------------------------------------ a stable thread

  /** Reads of a thread that does not change, any of which may fail. */
  ghost predicate Stable(thread: seq<seq<Message>>, start: nat, answers: seq<Page>) {
    forall i {:trigger answers[i]} :: 0 <= i < |answers| && start + i < |thread| ==>
      answers[i] in {Unreadable, Page(thread[start + i], if start + i + 1 < |thread| then Some(start + i + 1) else None)}
  }

  function Flat(thread: seq<seq<Message>>): seq<Message> {
    if thread == [] then [] else Flat(thread[..|thread| - 1]) + thread[|thread| - 1]
  }

  /** How far a reading gets: the cursor it stops at, or the end of the thread. */
  function Reach(thread: seq<seq<Message>>, swept: Swept): nat
    requires swept.Swept?
  {
    if swept.cursor.Some? then swept.cursor.value else |thread|
  }

  lemma StableTail(thread: seq<seq<Message>>, start: nat, answers: seq<Page>)
    requires Stable(thread, start, answers) && answers != []
    ensures Stable(thread, start + 1, answers[1..])
  {
    forall i {:trigger answers[1..][i]} | 0 <= i < |answers[1..]| && start + 1 + i < |thread|
      ensures answers[1..][i] in {Unreadable, Page(thread[start + 1 + i], if start + 1 + i + 1 < |thread| then Some(start + 1 + i + 1) else None)}
    {
      assert answers[1..][i] == answers[i + 1];
    }
  }

  /** Sweeping pages start..end and merging page by page is one selection from all their
      messages together. */
  lemma {:induction false} ReadIsOneSelection(lens: Lens, thread: seq<seq<Message>>, start: nat, answers: seq<Page>, merged: seq<Candidate>)
    requires start < |thread| && Stable(thread, start, answers)
    ensures var s := Read(lens, answers, start, Best(merged));
            s.Swept? ==>
              && (s.cursor.Some? ==> start <= s.cursor.value < |thread|)
              && s.best == Best(merged + Results(lens, Flat(thread[start..Reach(thread, s)])))
    decreases |answers|
  {
    hide Results, Best, Earliest, Flat, Stable;
    if answers == [] {
      assert thread[start..start] == [];
      NoPages(lens);
      assert merged + [] == merged;
    } else if answers[0].Page? {
      var page := thread[start];
      var now := merged + Results(lens, page);
      assert answers[0].values == page && answers[0].next == (if start + 1 < |thread| then Some(start + 1) else None) by { FirstAnswer(thread, start, answers); }
      BestOfBoth(merged, Results(lens, page));
      if start + 1 == |thread| {
        assert thread[start..|thread|] == [page];
        FlatOfOne(page);
      } else {
        StableTail(thread, start, answers);
        ReadIsOneSelection(lens, thread, start + 1, answers[1..], now);
        var s := Read(lens, answers[1..], start + 1, Best(now));
        if s.Swept? {
          PageThenRest(lens, thread, start, Reach(thread, s), merged);
        }
      }
    }
  }

  lemma NoPages(lens: Lens)
    ensures Results(lens, Flat([])) == []
  {
  }

  lemma FirstAnswer(thread: seq<seq<Message>>, start: nat, answers: seq<Page>)
    requires start < |thread| && Stable(thread, start, answers) && answers != [] && answers[0].Page?
    ensures answers[0] == Page(thread[start], if start + 1 < |thread| then Some(start + 1) else None)
  {
    assert answers[0] in {Unreadable, Page(thread[start + 0], if start + 0 + 1 < |thread| then Some(start + 0 + 1) else None)};
  }

  lemma PageThenRest(lens: Lens, thread: seq<seq<Message>>, start: nat, end: nat, merged: seq<Candidate>)
    requires start < end <= |thread|
    ensures merged + Results(lens, thread[start]) + Results(lens, Flat(thread[start + 1..end]))
         == merged + Results(lens, Flat(thread[start..end]))
  {
    hide Results, Flat;
    FlatFirst(thread[start..end]);
    assert thread[start..end][1..] == thread[start + 1..end];
    ResultsOfBoth(lens, thread[start], Flat(thread[start + 1..end]));
  }

  lemma FlatOfOne(page: seq<Message>)
    ensures Flat([page]) == page
  {
    assert [page][..0] == [];
    assert Flat([page][..0]) == [];
    assert [] + page == page;
  }

  lemma {:induction false} FlatOfBoth(a: seq<seq<Message>>, b: seq<seq<Message>>)
    ensures Flat(a + b) == Flat(a) + Flat(b)
  {
    if b == [] {
      assert a + b == a;
    } else {
      FlatOfBoth(a, b[..|b| - 1]);
      assert (a + b)[..|a + b| - 1] == a + b[..|b| - 1];
    }
  }

  lemma FlatFirst(pages: seq<seq<Message>>)
    requires pages != []
    ensures Flat(pages) == pages[0] + Flat(pages[1..])
  {
    assert pages == [pages[0]] + pages[1..];
    FlatOfBoth([pages[0]], pages[1..]);
    FlatOfOne(pages[0]);
  }

  // ------------------------------------------------------------ whole runs

  /** A task's sweep beside what it has merged since it last had to start over: the root
      results, and everything. */
  datatype Chase = Chase(linked: bool, hunt: Hunt, roots: seq<Candidate>, merged: seq<Candidate>)

  const NO_CHASE := Chase(false, Hunt(None, None, None), [], [])

  datatype ChaseStep =
    | Link                                  // the task's own message becomes known
    | Lapse                                 // a crash, or an exception before the update
    | Turn(root: Option<Candidate>, scanned: bool, answers: seq<Page>)

  function Of(c: Option<Candidate>): seq<Candidate> {
    if c.Some? then [c.value] else []
  }

  ghost predicate ChaseNext(lens: Lens, thread: seq<seq<Message>>, c: Chase, step: ChaseStep, c': Chase) {
    match step
    case Link => !c.linked && c.hunt.result.None? && c' == c.(linked := true)
    case Lapse => c' == c
    case Turn(root, scanned, answers) =>
      && c.hunt.result.None?
      && (c.linked ==> Stable(thread, StartOf(c.hunt), answers))
      && var swept := if c.linked then Read(lens, answers, StartOf(c.hunt), Earliest(c.hunt.candidate, root)) else Swept(None, None);
         && c'.linked == c.linked
         && c'.hunt == Round(lens, c.linked, c.hunt, root, scanned, answers)
         && c'.roots == (if swept.Broken? then [] else c.roots + Of(root))
         && c'.merged == (if swept.Broken? then [] else c.merged + Of(root) + (if c.linked then Window(lens, thread, StartOf(c.hunt), Reach(thread, swept)) else []))
  }

  /** The valid results of pages from..to of the thread. */
  function Window(lens: Lens, thread: seq<seq<Message>>, from: nat, to: nat): seq<Candidate> {
    if from <= to <= |thread| then Results(lens, Flat(thread[from..to])) else []
  }

  predicate Includes(all: seq<Candidate>, some: seq<Candidate>) {
    forall c :: c in some ==> c in all
  }

  ghost predicate ChaseInv(lens: Lens, thread: seq<seq<Message>>, c: Chase) {
    && (c.hunt.cursor.Some? ==> c.linked && c.hunt.cursor.value < |thread| && c.hunt.result.None?)
    && (if c.hunt.result.Some? then c.hunt.result else c.hunt.candidate) == Best(c.merged)
    && Includes(c.merged, Window(lens, thread, 0, if c.hunt.result.Some? && c.linked then |thread| else StartOf(c.hunt)))
    && Includes(c.merged, c.roots)
    && Includes(c.roots + Window(lens, thread, 0, |thread|), c.merged)
  }

  lemma WindowSplits(lens: Lens, thread: seq<seq<Message>>, mid: nat, end: nat)
    requires mid <= end <= |thread|
    ensures Window(lens, thread, 0, end) == Window(lens, thread, 0, mid) + Window(lens, thread, mid, end)
  {
    hide Results, Flat;
    assert thread[0..end] == thread[0..mid] + thread[mid..end];
    FlatOfBoth(thread[0..mid], thread[mid..end]);
    ResultsOfBoth(lens, Flat(thread[0..mid]), Flat(thread[mid..end]));
  }

  lemma NoWindow(lens: Lens, thread: seq<seq<Message>>)
    ensures Window(lens, thread, 0, 0) == []
  {
    assert thread[0..0] == [];
  }

  lemma BestOfOne(c: Option<Candidate>)
    ensures Best(Of(c)) == c
  {
    if c.Some? { assert [c.value][..0] == []; assert Best([c.value][..0]) == None; }
  }

  lemma TurnKeepsInv(lens: Lens, thread: seq<seq<Message>>, c: Chase, step: ChaseStep, c': Chase)
    requires thread != [] && ChaseInv(lens, thread, c) && step.Turn? && ChaseNext(lens, thread, c, step, c')
    ensures ChaseInv(lens, thread, c')
  {
    hide Results, Best, Earliest, Flat, Stable, Read, Window;
    var start := StartOf(c.hunt);
    var base := c.merged + Of(step.root);
    BestOfBoth(c.merged, Of(step.root));
    BestOfOne(step.root);
    NoWindow(lens, thread);
    BestIsMinimum([]);
    BestIsMinimum(c'.merged);
    if !c.linked {
      assert c'.merged == base + [] == base;
    } else {
      ReadIsOneSelection(lens, thread, start, step.answers, base);
      var swept := Read(lens, step.answers, start, Best(base));
      if swept.Swept? {
        var end := Reach(thread, swept);
        assert Window(lens, thread, start, end) == Results(lens, Flat(thread[start..end])) by { WindowIs(lens, thread, start, end); }
        WindowSplits(lens, thread, start, end);
        WindowSplits(lens, thread, end, |thread|);
      }
    }
  }

  lemma WindowIs(lens: Lens, thread: seq<seq<Message>>, start: nat, end: nat)
    requires start <= end <= |thread|
    ensures Window(lens, thread, start, end) == Results(lens, Flat(thread[start..end]))
  {
  }

  lemma ChaseKeepsInv(lens: Lens, thread: seq<seq<Message>>, c: Chase, step: ChaseStep, c': Chase)
    requires thread != [] && ChaseInv(lens, thread, c) && ChaseNext(lens, thread, c, step, c')
    ensures ChaseInv(lens, thread, c')
  {
    hide Best, Window, Round, Stable, Read;
    if step.Turn? { TurnKeepsInv(lens, thread, c, step, c'); }
  }

  lemma NoChaseInv(lens: Lens, thread: seq<seq<Message>>)
    ensures ChaseInv(lens, thread, NO_CHASE)
  {
    hide Results, Flat;
    NoWindow(lens, thread);
  }

  ghost predicate ChaseCanStep(lens: Lens, thread: seq<seq<Message>>, c: Chase, c': Chase) {
    exists step: ChaseStep :: ChaseNext(lens, thread, c, step, c')
  }

  ghost predicate ChaseRun(lens: Lens, thread: seq<seq<Message>>, run: seq<Chase>) {
    |run| > 0 &&
    if |run| == 1 then run[0] == NO_CHASE
    else ChaseRun(lens, thread, run[..|run| - 1]) && ChaseCanStep(lens, thread, run[|run| - 2], run[|run| - 1])
  }

  lemma {:induction false} ChaseRunInv(lens: Lens, thread: seq<seq<Message>>, run: seq<Chase>)
    requires thread != [] && ChaseRun(lens, thread, run)
    ensures ChaseInv(lens, thread, run[|run| - 1])
    decreases |run|
  {
    hide ChaseInv, ChaseNext;
    if |run| == 1 {
      NoChaseInv(lens, thread);
    } else {
      ChaseRunInv(lens, thread, run[..|run| - 1]);
      var step: ChaseStep :| ChaseNext(lens, thread, run[|run| - 2], step, run[|run| - 1]);
      ChaseKeepsInv(lens, thread, run[|run| - 2], step, run[|run| - 1]);
    }
  }

  /** However the pages fall into rounds and wherever rounds die, a committed result is
      the minimum of everything merged since the last restart: the root results, and
      every valid reply of the whole thread. */
  lemma CommittedIsEarliest(lens: Lens, thread: seq<seq<Message>>, run: seq<Chase>)
    requires thread != [] && ChaseRun(lens, thread, run)
    requires run[|run| - 1].hunt.result.Some?
    ensures var c := run[|run| - 1];
            var r := c.hunt.result.value;
            && (r in c.roots || r in Results(lens, Flat(thread)))
            && (forall other :: other in c.roots ==> !Before(other, r))
            && (c.linked ==> forall other :: other in Results(lens, Flat(thread)) ==> !Before(other, r))
  {
    hide Best, Results, Flat;
    ChaseRunInv(lens, thread, run);
    assert thread[0..|thread|] == thread;
    BestIsMinimum(run[|run| - 1].merged);
  }

  /** Nothing is committed before a sweep that reached the end of the thread, in a round
      whose root scan succeeded. */
  lemma CommitNeedsFullSweep(lens: Lens, thread: seq<seq<Message>>, c: Chase, step: ChaseStep, c': Chase)
    requires ChaseNext(lens, thread, c, step, c') && c.hunt.result.None? && c'.hunt.result.Some?
    ensures step.Turn? && step.scanned
    ensures c.linked ==>
              var swept := Read(lens, step.answers, StartOf(c.hunt), Earliest(c.hunt.candidate, step.root));
              swept.Swept? && swept.cursor.None? && c'.hunt.result == swept.best
  {
    hide Read, Results;
  }

  predicate SameKey(a: Candidate, b: Candidate) {
    a.created == b.created && a.id == b.id
  }

  /** How the same replies are split into pages, and how those are split into rounds,
      does not matter: two sweeps with the same replies and the same root results commit
      to the same message. */
  lemma SplitsDoNotMatter(lens: Lens, thread: seq<seq<Message>>, run: seq<Chase>, thread': seq<seq<Message>>, run': seq<Chase>)
    requires thread != [] && thread' != [] && Flat(thread) == Flat(thread')
    requires ChaseRun(lens, thread, run) && ChaseRun(lens, thread', run')
    requires run[|run| - 1].hunt.result.Some? && run'[|run'| - 1].hunt.result.Some?
    requires run[|run| - 1].linked && run'[|run'| - 1].linked
    requires Includes(run[|run| - 1].roots, run'[|run'| - 1].roots) && Includes(run'[|run'| - 1].roots, run[|run| - 1].roots)
    ensures SameKey(run[|run| - 1].hunt.result.value, run'[|run'| - 1].hunt.result.value)
  {
    hide Results, Flat;
    CommittedIsEarliest(lens, thread, run);
    CommittedIsEarliest(lens, thread', run');
    var r, r' := run[|run| - 1].hunt.result.value, run'[|run'| - 1].hunt.result.value;
    assert r' in run[|run| - 1].roots || r' in Results(lens, Flat(thread));
    assert !Before(r', r) && !Before(r, r');
  }
}

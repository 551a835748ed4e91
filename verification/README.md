# fs-exec: a verified model of its protocols

fs-exec moves work and messages between machines through shared directories and small local
journals. Its guarantees are about what survives: a crash between any two file operations, a
power loss that drops directory entries which were not flushed, racing or restarted processes,
and an external service that may answer anything. This project models those protocols in Dafny
and proves what every run of them keeps.

## How the project is built

Most components come in two layers. A transition system over values states the protocol, one
step per atomic action, with crashes and power losses as steps of their own; its lemmas speak of
every run. A class then does what the program does, updating its fields in place, and its
methods are proved against the transition system: ghost traces record each durable change, and
`Valid()` says that the trace is a run which ends at the current fields. Whatever holds of all
runs therefore holds of the objects. A method that can die takes a `budget` of steps, so that a
contract about a process that died speaks of the state after each single step.

| modules | what they model |
|---|---|
| `Wire`, `Channel` | JSON, symbolic digests, the vocabulary and the rules of the group channel |
| `Ledger`, `Laws`, `Fanout`, `Sequencer` | the broker: its journal and the laws of what it accepts, the fan-out to all mailboxes, the class `Broker` |
| `Feed` | readers of a possibly corrupted feed |
| `Outbox`, `Client` | the durable outbox of one author, and its end-to-end behaviour with the broker |
| `Rows`, `System`, `Legality`, `Policy`, `Convergence`, `Fit` | the Teams bridge towards the channel, composed with broker and outbox |
| `Posting`, `Sweep` | the bridge towards Teams: external posts, and the selection of results |
| `Bridge`, `Intake`, `Harvest` | the class `Bridge`, whose rounds are runs of both sides at once while the journal grows; its intake from a mailbox; its results over whole histories |
| `Disk`, `Install`, `Delivery`, `Relay` | a file system with inodes and flushes, recoverable installs, deliveries with barriers, the store-and-forward journal |
| `Clash` | publications with a file called by a staging name: the exact condition for the marker to mean all files |
| `Protocol`, `Paths`, `Snapshot` | publishing and verifying job directories, relative paths, and the relay's reading of directories |
| `Forward`, `Counterexamples` | publishing, snapshot, replay and reading back at the destination, composed; accepted publications that do not arrive |
| `Watch`, `Capture`, `Wait` | watchers and their claims, stored output, and the waiting client |

## What is assumed

* Hashing is symbolic: SHA-256 is a constructor, so equal digests have equal preimages, and the
  canonical encoding of a value parses back to it. The forty hexadecimal digits of a derived
  status key are taken to determine the message. Sizes of encoded bodies are a parameter, except
  in `Fit`, where they are computed byte by byte.
* A local database transaction is atomic and durable; `link`, exclusive `mkdir` and exclusive
  creation are atomic and never replace.
* Mailbox permissions hold: only an author writes its inbox, only the broker writes feeds, only
  the relay writes its destinations. `Feed` does without this for the feed files it reads.
* Configuration is constant over a run. Time is an arbitrary input.
* An HTTP status in `DEFINITE`, and a request known not to have been sent, create no Teams
  message. Any other answer, or none, may hide a message that appears later.
* A path component is a plain name or the staging name (`.rally-`, a digest, `.tmp`) that the relay
  derives from another component and a digest; any published file may be called by either. Which texts
  are staging names is a parameter (`Forward.Naming`), faithful to the texts.
* A new dispatch identity differs from all existing ones. A result header names at most one row,
  because dispatch identities are unique.

## What the proofs brought out

* A page of `read_events` that ends before HEAD is not vouched for by anything: the chain is
  anchored only at HEAD. `Feed.PageGenuineIffAtHead` gives the exact condition, and a forged feed
  for every page that misses it. Paging on until HEAD detects every such forgery (`Feed.ReadAll`).
* The publisher of a request compares upload names as they are, its readers up to case. A request
  with names that differ only in case is published and then verified by nobody;
  `Protocol.PublishedVerifies` gives the exact condition.
* `safe_name` lets a staging name of the relay through, and installing a file removes whatever single
  file is under its staging name. So a file that was delivered and verified is lost as soon as the file
  whose staging name it has is installed, be that one before or after it in the publication (a rerun
  begins with the first file), or in another publication. `Relay.ClashFree`, that no journaled path is
  the staging name of a journaled file, is what the results on the destination need, and
  `Clash.MarkerMeansAllIff` shows that nothing less will do: for a request by itself, or any publication
  whose files lie beside each other, the marker means all files in every run if and only if no names
  clash. `Counterexamples` has a request that passes every check, is marked done, and is verified by
  nobody; `Clash.CancellationIsLost` has two cancellations of which one is lost.
* A publication with one file above another (`artifacts/a` and `artifacts/a/b`, read at different
  moments) can pass the snapshot's checks (`Counterexamples.NestedIsAccepted`), and is then never done
  (`Forward.NestedIsNeverDone`). Into an empty destination a list arrives if and only if no name lies
  above another and no earlier one below a later file's staging name (`Forward.Send`); requests always do.
* The error branch of `fit` cannot be reached within the limits that the configuration allows,
  and one round of truncation is always enough (`Fit.FitText`).
* The phase `stuck` cannot be reached (`Legality.RowsMirrorBroker`), and the corruption checks of
  the client's outbox and of the relay's journal never fail on their own data.

## Model

| member | source | states |
|---|---|---|
| `Channel.RequestIsFramed` | fs_exec/channel.py:415-438 | A body that the client builds for a slot passes the sequencer's framing check for that author and slot, and yields the queued message |
| `Ledger.AcceptsKeepsInv` | fs_exec/channel.py:314-351 | One intake transaction keeps the journal's invariant: the tables are the fold of the accepted events, every author's high-water mark counts its events, numbers are contiguous and hashes chained |
| `Ledger.RevisionIsLastTouch` | fs_exec/channel.py:301-312 | A task exists exactly if an accepted event touched it, and its revision is the number of the last one that did |
| `Ledger.RevisionBound` | fs_exec/channel.py:301-312 | A revision is the number of an event already in the journal |
| `Ledger.TaskEvolution` | fs_exec/channel.py:292-312 | Over any stretch of the journal a task's assignee never changes, its revision never falls, and a terminal task does not change at all |
| `Ledger.TaskNeverReused` | fs_exec/channel.py:292-300 | No two accepted events assign the same task |
| `Ledger.AcksMonotone` | fs_exec/channel.py:283-287 | Acknowledgements never fall and refer only to earlier events |
| `Ledger.OnlyAssigneeOrCancel` | fs_exec/channel.py:301-312 | An accepted status comes from the task's assignee, or is a coordinator's cancellation |
| `Ledger.SlotsInOrder` | fs_exec/channel.py:314-351 | An author's slots are admitted in increasing order, each at most once |
| `Ledger.EventFacts` | fs_exec/channel.py:314-351 | At each position: accepted exactly if the message framed in its request is lawful for the tables folded so far, and then it carries that message; a rejected event changes nothing |
| `Ledger.AdmittedIsAccepts` | fs_exec/channel.py:314-351 | The tables and a body determine what an intake makes of the journal, up to the time and the reason of a refusal |
| `Laws.AckIsLast` | fs_exec/channel.py:283-288 | An author is among the acknowledgements exactly if one of its was accepted, and its entry is what its last accepted one says |
| `Laws.AcksNeverRegress` | fs_exec/channel.py:283-288 | Of two accepted acknowledgements of one author the later one says no less, and only earlier events are acknowledged |
| `Laws.AckAcceptedIff` | fs_exec/channel.py:283-288 | An acknowledgement is accepted exactly if it names an earlier event, or none, and no acknowledgement of its author accepted before says more |
| `Laws.LeaseIsLast` | fs_exec/channel.py:289-292 | An author is present exactly if a sign of life of its was accepted, and its lease is the session and the end of the last one |
| `Laws.PresenceAcceptedIff` | fs_exec/channel.py:289-292 | A sign of life is accepted exactly if its time to live is within the bound |
| `Laws.ChatAcceptedIff` | fs_exec/channel.py:276-282 | A chat is accepted exactly if it mentions members only, none twice, and replies to an earlier event or to none |
| `Laws.TaskIsLast` | fs_exec/channel.py:292-312 | A task exists exactly if an accepted event assigned it; its status is the one its last accepted event left, and its assignee the only one it was assigned to |
| `Laws.AssignAcceptedIff` | fs_exec/channel.py:293-300 | An assignment is accepted exactly if a coordinator makes it, to a member, of a task that no event accepted before assigned |
| `Laws.ReportAcceptedIff` | fs_exec/channel.py:301-312 | A report is accepted exactly if its revision is the number of the last accepted event about the task, its status may follow the one that event left, and its author is the one the task was assigned to or a cancelling coordinator |
| `Fanout.RunKeepsInv` | fs_exec/channel.py:353-367 | Every state of every run of the fan-out, with a power loss between any two file steps, satisfies the fan-out invariant |
| `Fanout.HeadMeansEverywhere` | fs_exec/channel.py:353-367 | If any one mailbox's HEAD is k, every mailbox durably holds exactly the journal's bytes of events 1 to k |
| `Fanout.HeadsWithinOne` | fs_exec/channel.py:353-367 | HEADs of two mailboxes differ by at most one, and at most the last event is unpublished |
| `Fanout.StepNeverRegresses` | fs_exec/channel.py:114-126 | No step, not even a power loss, moves a durable HEAD back |
| `Fanout.HeadsNeverRegress` | fs_exec/channel.py:353-367 | The durable HEAD never regresses over a run |
| `Fanout.VisibleHeadNeverRegresses` | fs_exec/channel.py:353-367 | Between power losses the visible HEAD never regresses |
| `Sequencer.Broker.constructor` | fs_exec/channel.py:248-255 | A new broker is an empty journal with empty mailboxes |
| `Sequencer.Broker.Message` | fs_exec/channel.py:263-312 | Succeeds exactly if the message is lawful for the tables, and then changes exactly the entry it is about: an acknowledgement is stored as its author's, a sign of life as its author's lease, an assignment as a new task, a report as the task's status and revision; otherwise nothing changes |
| `Sequencer.Broker.Mention` | fs_exec/channel.py:276-282 | Accepts a chat exactly if its mentions are distinct members and its reply target is an earlier event |
| `Sequencer.Broker.Status` | fs_exec/channel.py:301-312 | Accepts a status exactly if it is the current revision, a legal transition, and by the assignee or a cancelling coordinator |
| `Sequencer.Broker.Accept` | fs_exec/channel.py:314-351 | Takes the next slot exactly if it is present, stable, well framed and the journal has room, and then commits one transaction; otherwise changes nothing |
| `Sequencer.Broker.PutFile` | fs_exec/channel.py:114-126 | Links one event file into one feed, and nothing else |
| `Sequencer.Broker.Sync` | fs_exec/channel.py:114-126 | After the barriers a mailbox's files and HEAD are durable |
| `Sequencer.Broker.WriteHead` | fs_exec/channel.py:361-364 | Replaces one visible HEAD by the one of event n |
| `Sequencer.Broker.MarkPublished` | fs_exec/channel.py:365-367 | Marks an event that every HEAD durably names |
| `Sequencer.Broker.Spray` | fs_exec/channel.py:357-360 | It ends exactly with two steps for each mailbox, and then the event is durable in every feed; wherever it dies, the run goes on |
| `Sequencer.Broker.Advance` | fs_exec/channel.py:361-365 | It ends exactly with two steps for each mailbox, and then every durable HEAD names the event |
| `Sequencer.Broker.Replay` | fs_exec/channel.py:353-367 | When it ends, every event is published, and with the steps for one event it ends; wherever it dies, the invariant holds |
| `Sequencer.Broker.Turn` | fs_exec/channel.py:369-382 | One participant's turn takes its next slot exactly if it is readable, stable, framed and the journal has room, moves no other author's mark, and publishes what it took; with the steps for it, it ends |
| `Sequencer.Broker.Once` | fs_exec/channel.py:369-382 | One round: the journal only grows, exactly by the slots that were taken, a finished round leaves nothing unpublished, and with the stated number of steps it finishes |
| `Feed.ReadEvents` | fs_exec/channel.py:217-245 | Returns a page exactly if HEAD names a number, the page's files decode and their hashes chain, and the last one is the digest in HEAD when the page reaches it; what stands in HEAD's digest does not matter to a shorter page |
| `Feed.ChainIsGenuine` | fs_exec/channel.py:217-245 | Files that chain up to the digest of a journal prefix are that prefix, by backward induction over injective hashes |
| `Feed.PageAtHeadIsGenuine` | fs_exec/channel.py:217-245 | A page that reaches a HEAD the broker wrote consists of the journal's own events, whatever is on the disk |
| `Feed.PageGenuineIffAtHead` | fs_exec/channel.py:239-245 | Whatever the feed holds, every returned page is genuine if and only if it reaches HEAD; for every shorter page there is a forged feed that passes |
| `Feed.ReadAll` | fs_exec/channel.py:217-245 | If paging from 0 reaches the number of a HEAD the broker wrote, with a short or a full last page, the pages together are journal events 1 to HEAD, each once and in order, for any page sizes and any corruption; otherwise it has not reached the last HEAD read |
| `Feed.MailboxReads` | fs_exec/channel.py:217-245 | In every reachable fan-out state, reading a mailbox succeeds and gives the journal's next events |
| `Feed.EnvelopeDecodes` | fs_exec/channel.py:207-215 | Decoding an event file gives back the event that was written |
| `Outbox.MailRunKeepsInv` | fs_exec/channel.py:415-451 | Over all client crashes, retries, power losses and other authors, the outbox invariant holds and neither queue nor journal is ever rewritten |
| `Outbox.KeyOwnsSlot` | fs_exec/channel.py:415-438 | An idempotency key owns its slot and message for ever, and no other key owns that slot |
| `Outbox.QueuedIsNeverLost` | fs_exec/channel.py:415-451 | A queued request is at every moment in the outbox or durably in the inbox, byte for byte |
| `Outbox.AdmittedOnceInOrder` | fs_exec/channel.py:314-351 | Each slot is admitted at most once, in order, without gaps, with the hash of the queued request |
| `Client.Client.Queue` | fs_exec/channel.py:415-438 | A known key returns its first slot or, exactly if the message differs, conflicts, whatever the limits; a new key consumes exactly the next slot, or fails on a stated limit and changes nothing |
| `Client.Client.Insert` | fs_exec/channel.py:434-437 | One transaction consumes the slot: outbox row, key row and next slot |
| `Client.Client.Deliver` | fs_exec/channel.py:440-451 | A row leaves the outbox only after its bytes are durable in the inbox, and with three steps it does; wherever it dies, the run goes on |
| `Client.Client.Sync` | fs_exec/channel.py:440-451 | Publishes in slot order; what it reports published is durably in the inbox; with three steps for each pending body nothing stays in the outbox |
| `Client.Client.LosePower` | fs_exec/util.py:119-130 | A power loss at the inbox keeps what is durable and any part of the rest, as a step of the author's run |
| `Client.Client.Identity` | fs_exec/channel.py:442-447 | The corruption checks before publication cannot fail: an outbox row is the request of its key |
| `Fit.RequestSizeIs` | fs_exec/copilot365.py:628-632 | The size of a rendered request is its fixed overhead plus the escaped size of its text |
| `Fit.CutShrinks` | fs_exec/copilot365.py:633-637 | A truncation round strictly shortens the text and removes at least the excess, unless only one character could be kept |
| `Fit.FitText` | fs_exec/copilot365.py:628-637 | Terminates in at most one round, never fails within the configured bounds, and its result fits in every slot up to the maximum; a text that fits stays as it is, and of another all but its excess and 32 characters is kept, at least one |
| `Fit.ShortTextFits` | fs_exec/copilot365.py:633-636 | A text of sixteen characters always fits, so the failure branch is dead |
| `Rows.StatusMessageDecodes` | fs_exec/copilot365.py:651-672 | The status message of a row decodes at the broker as that report |
| `System.SlotOf` | fs_exec/copilot365.py:639-649 | The slot recovered for a known key is one where that key was queued |
| `Legality.SystemRunInv` | fs_exec/copilot365.py:579-605 | Every state of every run of broker, coordinators, bridge crashes, intake and reports satisfies the system invariant |
| `Legality.EveryStatusIsLegal` | fs_exec/copilot365.py:651-679 | Every status the bridge ever sends is accepted by the broker, unless a coordinator's cancellation of that task was sequenced first |
| `Legality.RowsMirrorBroker` | fs_exec/copilot365.py:579-605 | Each bridge row shows exactly the broker's status and revision at the bridge's cursor, and no row is ever stuck |
| `Legality.AtMostOneInFlight` | fs_exec/copilot365.py:651-679 | At most one status per task is on its way |
| `Legality.QueuedIsNotCancelled` | fs_exec/copilot365.py:706-713 | A row that is still open was not ended by any event up to the cursor |
| `Policy.TakenOnIsAllowed` | fs_exec/copilot365.py:589-598 | In every reachable state a task that is queued, dispatched, or ever was, was assigned to the bridge by a coordinator in an accepted event that the bridge has applied, with a text that the policy allows |
| `Policy.CreatedByPolicy` | fs_exec/copilot365.py:589-598 | In every run a row appears only with the event that assigns its task to the bridge, queued exactly if the policy allows the text and rejected otherwise |
| `Policy.RefusedIsNeverTaken` | fs_exec/copilot365.py:589-598 | A task assigned with a text that the policy refuses is never queued or dispatched |
| `Policy.RunTakesOn` | fs_exec/copilot365.py:579-605 | Both hold of every state and every step of every run |
| `Legality.RecoverKeepsInv` | fs_exec/copilot365.py:639-649 | Recovery of a crashed intent keeps the system invariant |
| `Legality.PlanKeepsInv` | fs_exec/copilot365.py:660-675 | A new intent, made only for an idle row at its revision, keeps the system invariant |
| `Legality.SendKeepsInv` | fs_exec/copilot365.py:676-676 | Queueing the intent consumes a new slot and keeps the system invariant |
| `Legality.IngestKeepsInv` | fs_exec/copilot365.py:579-605 | Applying one feed event keeps the system invariant |
| `Convergence.NextIsCloser` | fs_exec/copilot365.py:660-670 | There is a next status exactly while the wanted one is not shown, it is always a legal transition, and it is one closer |
| `Convergence.SteeredScore` | fs_exec/copilot365.py:651-679 | Sent so far plus still to send is constant while the task is steered to one status |
| `Convergence.SendsExactly` | fs_exec/copilot365.py:651-679 | From a row on its way, with or without a status pending, exactly the missing statuses are sent, not counting one already in transit, and nothing is left to send exactly when the wanted one is shown |
| `Convergence.ReportsConverge` | fs_exec/copilot365.py:651-679 | From any row that is not terminal, whatever it has pending, at most two more statuses are sent beside a pending one, and once nothing is pending or left to send the broker's table shows the wanted one, or the terminal one that was already pending |
| `Posting.ActKeepsInv` | fs_exec/copilot365.py:764-790 | Every act of the dispatch, of Teams, or of the operator keeps the dispatch invariant |
| `Posting.AtMostOnePostPerRepost` | fs_exec/copilot365.py:764-790 | The messages ever created or still possible for a task number at most one more than its operator reposts, all under its one dispatch identity, for every crash and every answer |
| `Posting.DispatchIsForever` | fs_exec/copilot365.py:764-768 | A task keeps its dispatch identity for ever and shares it with no other task |
| `Posting.OutstandingIsBounded` | fs_exec/copilot365.py:707-713 | Dispatched tasks without a result never exceed the configured maximum |
| `Posting.OnlyOperatorReposts` | fs_exec/copilot365.py:773-787 | A task goes back to the queue only by an operator's repost, or by an answer that proves nothing was created |
| `Posting.AnswerDecides` | fs_exec/copilot365.py:769-790 | A row is posted exactly after an answer with a message identity, under it and from that time; rejected or queued exactly after the answers that prove nothing was created, each with its codes; ambiguous after every other |
| `Posting.LinkedByAct` | fs_exec/copilot365.py:769-814 | In every history the message of a row, and the time from which it can be overdue, are those of an act that linked it: an answer, a scan, or the operator |
| `Posting.OfficeIsDispatch` | fs_exec/copilot365.py:764-814 | Seen from the channel, every act on the Teams side changes one open row only in its phase and Teams columns |
| `Sweep.BestIsMinimum` | fs_exec/copilot365.py:498-501 | The selection is one of the candidates and none is earlier, by creation time and then by number |
| `Sweep.BestOfBoth` | fs_exec/copilot365.py:498-501 | Selecting from two batches and then between the two is selecting from all |
| `Sweep.Candidates` | fs_exec/copilot365.py:821-853 | Per dispatched task, a result that one of the messages tells (undeleted, plain, in the channel, from the responder, in the thread, its header naming task, dispatch and outcome), and no message that tells one is passed over for a later one |
| `Sweep.ResultsAreTold` | fs_exec/copilot365.py:821-853 | A result is found in some messages exactly if one of them tells it |
| `Sweep.FindPosts` | fs_exec/copilot365.py:796-809 | Per dispatch identity, the first root of the bridge account that carries it; every root of the account is found under its identities, and nobody else's is |
| `Sweep.ReadPages` | fs_exec/copilot365.py:722-738 | Merges page by page what the pages hold, stops at the end, the allowance, or a failed read |
| `Sweep.ReadIsOneSelection` | fs_exec/copilot365.py:722-738 | On a stable thread, merging page by page is one selection from all covered messages |
| `Sweep.CommittedIsEarliest` | fs_exec/copilot365.py:715-752 | A committed result is the minimum over every valid reply of the whole thread and every root result merged since the last restart, however pages fall into rounds and rounds die |
| `Sweep.CommitNeedsFullSweep` | fs_exec/copilot365.py:739-752 | Nothing is committed before a sweep reached the end in a round whose root scan succeeded |
| `Sweep.SplitsDoNotMatter` | fs_exec/copilot365.py:715-752 | Two sweeps over the same replies in different pages and rounds, with the same root results, commit to the same message |
| `Harvest.SweepFollows` | fs_exec/copilot365.py:715-752 | Through posts, answers, crashes, scans, operators and rounds, the sweep columns of a task's row are a run of the sweep |
| `Harvest.RowResultIsEarliest` | fs_exec/copilot365.py:715-752 | In every such history the result in a row is a valid reply or root result; no valid result in any root message read since the last restart is earlier and, if the task's thread is known, no valid reply in it is |
| `Harvest.BridgeResultIsEarliest` | fs_exec/copilot365.py:715-752 | The same for the rows of the bridge object, from the rounds of collecting that the object remembers |
| `Harvest.ResultIsHeard` | fs_exec/copilot365.py:715-853 | In any history, whatever the reads bring: a result in a row is told by a message that its rounds read since the last failed reading, a root message or a reply in its thread, from the configured responder, and no message read since then tells an earlier one |
| `Harvest.RoundCommits` | fs_exec/copilot365.py:739-752 | A round commits a result exactly if its scan of the roots succeeded, its reading came to the end of the thread if there is one, and a message read since the last failure tells a result |
| `Harvest.BridgeResultIsHeard` | fs_exec/copilot365.py:715-853 | So it is with the results in the rows of the bridge object, with no assumption on what its rounds read |
| `Harvest.WantedIsJustified` | fs_exec/copilot365.py:609-626 | In every history running is wanted only with a known message that is not overdue, blocked or running exactly while dispatched without a result, and an outcome exactly with a committed result, then that one's, or a rejection |
| `Bridge.SlotsAreOwn` | fs_exec/copilot365.py:581-588 | In every reachable state no two rows wait for the same slot, so the lookup by slot is unambiguous |
| `Bridge.GrowRun` | fs_exec/copilot365.py:706-713 | A step that posts only an open task, at the HEAD read last, keeps a run in which every post is such a step |
| `Bridge.SettleOne` | fs_exec/copilot365.py:581-588 | Exactly the row that waits for the event's slot is settled |
| `Bridge.Bridge.constructor` | fs_exec/copilot365.py:517-533 | A new bridge has no rows, starts unrecovered at cursor 0 before an empty journal, and has no dispatches or reposts |
| `Bridge.Bridge.Admit` | fs_exec/channel.py:314-351 | The sequencer takes in the bridge's own next slot or another author's exactly if it can, as a step of the group's run |
| `Bridge.Bridge.Elapse` | fs_exec/channel.py:369-382 | Any number of such intakes between two steps of the bridge only extend the journal |
| `Bridge.Bridge.LosePower` | fs_exec/util.py:119-130 | A power loss at the inbox directory is a step of the group's run |
| `Bridge.Bridge.Change` | fs_exec/copilot365.py:579-605 | One event adds a row exactly if it assigns a new task to the bridge, queued if the policy allows its text and rejected if not; in the rows that are there it settles what it answers and shows what it reports, and closes a task that ended; tasks stay in assignment order |
| `Bridge.Bridge.Apply` | fs_exec/copilot365.py:572-576 | One event and the cursor advance together, as one step of the group's run |
| `Bridge.Bridge.Ingest` | fs_exec/copilot365.py:569-577 | Applies exactly the next page of the journal, which may have grown, under the HEAD that is read, and nothing exactly when that HEAD is behind the cursor |
| `Intake.ReadPage` | fs_exec/copilot365.py:569-571 | For a mailbox of the fan-out of this journal, reading the feed fails exactly when HEAD is behind the cursor, and otherwise returns exactly the events that the intake applies |
| `Bridge.Bridge.Drain` | fs_exec/copilot365.py:562-567 | Up to date only when the cursor equals the last HEAD read, stopped exactly by a HEAD behind the cursor, and all events up to the cursor are applied in order, while the journal grows |
| `Bridge.Bridge.RecoverOne` | fs_exec/copilot365.py:643-649 | A crashed intent becomes in flight under the client's slot for its key, or is dropped if the client never had it |
| `Bridge.Bridge.RecoverPending` | fs_exec/copilot365.py:639-649 | Exactly the crashed intents are recovered, and none is left |
| `Bridge.Bridge.Sync` | fs_exec/copilot365.py:879-879 | Delivering the outbox is a stretch of the group's run |
| `Bridge.Bridge.Intend` | fs_exec/copilot365.py:671-675 | The durable intent carries the message and its derived key, which was never used before |
| `Bridge.Bridge.Hand` | fs_exec/copilot365.py:676-676 | Queueing the intent gets the next slot; the only possible failure is that the author has no slots left |
| `Bridge.Bridge.RecordSlot` | fs_exec/copilot365.py:677-677 | The row is in flight under the slot it got |
| `Bridge.Bridge.SendStatus` | fs_exec/copilot365.py:671-678 | The row waits for a report of exactly this status at its revision, cut to size |
| `Bridge.Bridge.Report` | fs_exec/copilot365.py:651-679 | Every idle row with a next status sends exactly that, oldest first while the outbox has room, and no other row changes; it fails only when the slots are used up |
| `Bridge.Bridge.Post` | fs_exec/copilot365.py:764-790 | The row after a post is the one its answer calls for, with the dispatch identity it already had; a process that dies leaves the durable intent; the decision is a step of the run under the HEAD just read |
| `Bridge.Bridge.Reconcile` | fs_exec/copilot365.py:792-814 | Every unresolved row is linked to the first root of the bridge's account that carries its dispatch identity, or becomes ambiguous if there is none, and no other row changes |
| `Bridge.Bridge.Collect` | fs_exec/copilot365.py:715-752 | One round of one task does to its row exactly what the sweep specification says, and is remembered with the roots and pages it read |
| `Bridge.Bridge.CollectAll` | fs_exec/copilot365.py:702-705 | Every dispatched task gets its round with the earliest root result of its own, no other row changes, and exactly these rounds are remembered, each over these roots and on the task's own row |
| `Bridge.Bridge.Resolve` | fs_exec/copilot365.py:903-924 | The operator's choice is refused exactly when the phase does not allow it or the message to adopt is not the task's own post; otherwise it changes that row only, and only a repost is counted as one |
| `Bridge.Bridge.QueuedIsOpen` | fs_exec/copilot365.py:706-713 | A queued row was not ended by any event up to the cursor |
| `Bridge.Bridge.PostOldest` | fs_exec/copilot365.py:706-713 | A post happens only with every event up to the HEAD just read applied, none of them ending the task, fewer than the maximum outstanding, and for the oldest queued task; up to date and with room, a queued task is tried |
| `Bridge.Bridge.Begin` | fs_exec/copilot365.py:876-880 | Recovery, delivery and intake, in this order, are a stretch of the group's run; it fails only on a HEAD behind the cursor |
| `Bridge.Bridge.Teams` | fs_exec/copilot365.py:690-713 | The Teams side of a round is a stretch of both runs; the task it tries is posted in it and open at the HEAD it read; it uses no dispatch identity but the one drawn, and collects only over the roots and pages it was given |
| `Bridge.Bridge.Once` | fs_exec/copilot365.py:876-892 | A whole round while the journal grows, wherever it dies, is a stretch of both runs; in the whole run a task goes from queued to dispatched only when the cursor is at the HEAD read last and no event up to it ended the task; a task that was tried is posted in this round; it ends early only if the process died in a post, the slots are used up, or a HEAD was behind the cursor |
| `Bridge.Bridge.Serve` | fs_exec/copilot365.py:690-713 | Over any sequence of rounds with power losses, operators and other authors: every step of the run that takes a task from queued to dispatched is made at the HEAD read last, with everything up to it applied and none of it ending the task; never are more tasks outstanding than configured; a task has at most one message, made or still possible, and one more per repost the operator asked for; every round of collecting is one of these rounds'; no task is ever queued or posted that the policy refuses, and each row appears as the policy decides |
| `Disk.DurableSurvives` | fs_exec/util.py:119-130 | A file that is flushed with all directories above it is there, unchanged, after any power loss |
| `Disk.ChainSurvives` | fs_exec/util.py:52-64 | Flushed directories survive from the root downwards |
| `Install.MakeDirStep` | fs_exec/util.py:52-64 | Creating a missing directory is progress of the install and disturbs nothing else |
| `Install.CreateStep` | fs_exec/rally.py:194-194 | An exclusive staging file under a new inode is reachable by its staging name only |
| `Install.LinkStep` | fs_exec/rally.py:200-200 | Linking the flushed staging file under the free destination name is progress |
| `Install.StagedNames` | fs_exec/rally.py:180-193 | A staging file has two links exactly if the destination is the other one, and then holds the complete flushed bytes |
| `Install.AttemptsRecover` | fs_exec/rally.py:160-203 | After any number of interrupted attempts and power losses the next attempt starts from a state it can recover, and whatever is visible at a destination that was free is the complete file |
| `Install.OwnReads` | fs_exec/rally.py:160-203 | A destination the install owns, once its staging name is gone, reads as the bytes and has one link |
| `Install.DirWalkKeeps` | fs_exec/util.py:52-64 | Creating the directories above a destination passes only through disks that are progress of the install, adds nothing but directories above it, and ends with the parent there or something other than a directory in the way |
| `Install.LinkWalkKeeps` | fs_exec/rally.py:200-203 | From a flushed private staging file to the end every disk is progress; the destination is a file with the bytes and one link, durable with its directory, or was there before and is the same |
| `Install.PlaceWalkKeeps` | fs_exec/rally.py:174-203 | With staging state of any earlier attempt every disk is progress; the install ends with the bytes under one link, or leaves an existing destination, or refuses staging state that it does not leave behind and changes nothing |
| `Install.InstallWalkKeeps` | fs_exec/rally.py:160-203 | Every disk that the whole procedure passes through is progress, and its end is one of: the complete file with one link and no staging name, an untouched destination, something in the way |
| `Install.Volume.MakeDirs` | fs_exec/util.py:52-64 | Creates the missing directories above the destination, the upper ones first, each flushed in its parent, stops on a non-directory, and may die after any step |
| `Install.Volume.Stage` | fs_exec/rally.py:194-199 | Creates, writes and flushes the file under the staging name, in this order, and may die after any step |
| `Install.Volume.Release` | fs_exec/rally.py:200-203 | Links the staged file under its name unless that is taken, then removes the staging name and flushes, and may die after any step |
| `Install.Volume.Install` | fs_exec/rally.py:160-203 | The whole procedure goes through the disks of its walk, dying after any number of steps |
| `Install.Volume.InstallFile` | fs_exec/rally.py:160-203 | Rerun with enough steps it ends with the destination equal to the body, one link and no staging name, or finds the destination already there and leaves it, or finds a directory in the way; an existing destination never changes and partial bytes never show there |
| `Delivery.DeliverDoes` | fs_exec/rally.py:518-534 | A delivery that succeeds leaves the destination readable with its bytes, a destination that was there the same file, the staging name free, and elsewhere nothing new but directories above; with a directory under the staging name it does not succeed |
| `Delivery.FlushWalkNarrows` | fs_exec/rally.py:528-533 | Flushing the directories of a path up to its root changes no visible entry, only narrows what a power loss can bring back, and leaves every entry of the chain settled |
| `Delivery.FlushedIsDurable` | fs_exec/rally.py:528-533 | A complete file below flushed directories is durable |
| `Delivery.PassStops` | fs_exec/rally.py:518-533 | Once a file is not delivered the rest is not begun, and what was done for the first files is done first |
| `Delivery.FlushChain` | fs_exec/rally.py:530-533 | Flushes every directory of a path, the deepest first, and may die after any step |
| `Delivery.DeliverFile` | fs_exec/rally.py:518-533 | One file is installed, read back and flushed before the next, dying after any step |
| `Relay.OwnersSeparate` | fs_exec/rally.py:545-588 | Different publications own different paths, none above another's |
| `Relay.DigestDetermines` | fs_exec/rally.py:227-232 | A publication digest determines the paths and bytes in order |
| `Relay.InstallKeepsDisk` | fs_exec/rally.py:509-538 | As long as no journaled name is another file's staging name, installing a file after its predecessors are durable keeps, for every publication, complete bytes only and earlier files first |
| `Relay.FileKept` | fs_exec/rally.py:509-538 | The same for one file of one publication |
| `Relay.NarrowsKeepsDisk` | fs_exec/rally.py:530-535 | Directory barriers and power losses keep it too |
| `Relay.MarkerMeansAll` | fs_exec/rally.py:509-538 | If the marker, or any file, of a publication is there at any moment or after a power loss then, it is complete and every earlier file is there with the journaled bytes; the disk it speaks of is kept, with names that do not clash, by every step of the relay |
| `Relay.JournalKeepsDisk` | fs_exec/rally.py:502-507 | Recording a new publication whose names do not clash keeps the destination invariant, because nothing of it can be there yet |
| `Relay.DeliverKeeps` | fs_exec/rally.py:518-533 | Every disk that the delivery of one file passes through keeps the destination as the relay wants it; if it succeeds, one more file is durable and its staging name gone for good; if not, something was in its way |
| `Relay.PassKeeps` | fs_exec/rally.py:517-533 | The same for the first k files of a publication; if they all arrive, no one of them lies above another or below a later one's staging name, and if not, one of them was obstructed by what was there before or by such an earlier file |
| `Relay.BlockedIsObstructed` | fs_exec/rally.py:518-527 | What blocks a file after its predecessors were delivered was there before the replay, or is one of those lying above or below it or below its staging name |
| `Relay.NestedIsNeverWhole` | fs_exec/rally.py:517-533 | Two files of one publication, one above the other, are never both durable, on no disk |
| `Relay.Rally.constructor` | fs_exec/rally.py:361-368 | An empty journal over a destination without files under the paths that publications own |
| `Relay.Rally.Remember` | fs_exec/rally.py:447-455 | Remembers an identity exactly if it is known or the budget allows one more |
| `Relay.Rally.Replay` | fs_exec/rally.py:509-538 | Passes exactly through the disks of the walk over the files in order, dying after any step, also between the last barrier and the commit; with names that do not clash, what it publishes is durable with nothing of its staging left, and it is deferred only if a file was obstructed; it never touches a publication already done |
| `Relay.Rally.Finish` | fs_exec/rally.py:536-538 | Marks one publication done and drops exactly its bodies |
| `Relay.Rally.Record` | fs_exec/rally.py:502-507 | Records the digest and all bodies in one transaction within the budgets |
| `Relay.Rally.Publish` | fs_exec/rally.py:483-538 | Refuses exactly what exceeds a limit, has a bad path or conflicts with the recorded digest, changing nothing; the first valid publication wins for ever, one that is done is never installed again; with names that do not clash, what it publishes is whole, and with enough steps only an obstruction defers it |
| `Relay.Rally.LosePower` | fs_exec/util.py:119-130 | A power loss between any two steps keeps the journal, and with names that do not clash every invariant of the destination |
| `Clash.MarkerMeansAllIff` | fs_exec/rally.py:170-203 | For any publication by itself in an empty destination, whose files lie beside each other (as in every request): the marker means all files, at every moment of every run of interrupted replays and power losses, if and only if no file is called by the staging name of another |
| `Clash.ClashFreeKeeps` | fs_exec/rally.py:509-538 | Without a clash every disk that the replays and power losses of any publication by itself can lead to is as the relay wants it, wherever its files lie |
| `Clash.FlatDelivers` | fs_exec/rally.py:518-533 | Between deliveries of such files, whatever their names, every further delivery succeeds and leaves only complete files with one link |
| `Clash.LostAtOnce` | fs_exec/rally.py:174-193 | A file called by the staging name of a later one is gone after a replay that succeeds, with the marker there |
| `Clash.LostOnRetry` | fs_exec/rally.py:174-193 | A file called by the staging name of an earlier one is gone once a replay is begun again and has come to that one, with the marker there all the time |
| `Clash.TornMarker` | fs_exec/rally.py:194-199 | While a file is staged under the marker's name, an incomplete file is there as the marker |
| `Clash.CancellationIsLost` | fs_exec/rally.py:563-588 | Any two cancellation records of one target, one called by the staging name of the other, are both replayed to the end, and the first, though done, is gone |
| `Protocol.CheckEntries` | fs_exec/protocol.py:143-157 | Succeeds exactly on well-formed uploads with case-distinct names within the total |
| `Protocol.VerifyRequest` | fs_exec/protocol.py:133-164 | Returns the manifest exactly when the request is complete, consistent and within the reader's limits |
| `Protocol.CopyUploads` | fs_exec/protocol.py:94-105 | Copies every upload and lists it, exactly if names are safe and distinct and the total is within the limit |
| `Protocol.PublishRequest` | fs_exec/protocol.py:83-118 | Publishes exactly the copies, the manifest, and a marker that commits to it, exactly if the job's name is safe, its ready directory is not there yet, and the uploads are publishable |
| `Protocol.PublishedVerifies` | fs_exec/protocol.py:99-99 | A published request is verified as its own manifest if and only if no two upload names differ only in case |
| `Protocol.CaseClashIsNeverVerified` | fs_exec/protocol.py:147-150 | Uploads "a" and "A" are published but verified by no reader |
| `Protocol.ReadFinal` | fs_exec/protocol.py:185-209 | Returns the result exactly when pointer, generation, identities, digest and chunk manifests agree |
| `Snapshot.Snapshot.Read` | fs_exec/rally.py:241-250 | Succeeds exactly on a relative name that was read before, or is found by the next look within every budget; each name is read once, and later reads give the same bytes |
| `Snapshot.Snapshot.Payload` | fs_exec/rally.py:255-261 | Succeeds only if the bytes have the entry's size and digest, and does if a directory that nobody changes holds them within the limits |
| `Snapshot.Snapshot.Unchanged` | fs_exec/rally.py:263-266 | Every file of the snapshot was read again with the same bytes; succeeds if nobody changes them |
| `Snapshot.Snapshot.ExactTree` | fs_exec/rally.py:268-295 | Succeeds exactly if every entry met is accounted for and their number is within the limit |
| `Snapshot.Snapshot.ReadUploads` | fs_exec/rally.py:307-316 | Every upload is well formed, case-distinct, held with its bytes, and they add up to the committed total; if a directory that nobody changes holds them so, all are read, in order |
| `Snapshot.Snapshot.RequestSnapshot` | fs_exec/rally.py:298-320 | What is returned is a complete consistent request of exactly the files its manifest names, each once and marker last, within the limits, read twice, with nothing else beside it; a complete request within the limits, in a directory that nobody changes, is returned, as the list of its files in manifest order |
| `Snapshot.Snapshot.ResultSnapshot` | fs_exec/rally.py:323-358 | What is returned is a selected result with every chunk and artifact, each file once and pointer last, within the limits, none of them a status record, read twice; a complete result within the limits, in a directory that nobody changes, is returned |
| `Snapshot.Snapshot.ReadStreams` | fs_exec/rally.py:336-344 | Both streams are read with all their declared chunks, and are if a directory that nobody changes holds them |
| `Snapshot.RelayedResultIsFinal` | fs_exec/rally.py:323-358 | What the relay accepted is the selected result at the destination, exactly when the reader's size limit admits it, and no other result is |
| `Paths.SplitJoin` | fs_exec/rally.py:51-59 | A joined relative path splits into its components again |
| `Paths.JoinSplit` | fs_exec/rally.py:51-59 | Splitting a relative path and joining it gives the same text |
| `Forward.PlacedIsProper` | fs_exec/rally.py:545-555 | The files of an accepted snapshot are all the publication's own, at different paths, whichever names are staging names |
| `Forward.PlacedIsAdmitted` | fs_exec/rally.py:227-232 | An accepted snapshot is never refused for size or count, but exactly for a path that is too long or too deep below the publication's directory |
| `Forward.ReadDirAt` | fs_exec/util.py:107-114 | Reading the directory at the destination finds exactly the regular files under the paths of their names |
| `Forward.MarkerAgrees` | fs_exec/rally.py:509-538 | At any moment, whoever finds the last file of a publication at the destination finds every file of the accepted list with its bytes, as long as no journaled names clash |
| `Forward.RequestArrives` | fs_exec/rally.py:545-549 | During the replay and after any power loss, a directory in which the marker is found holds every accepted file with its bytes, and besides only staging files |
| `Forward.OnlyTheRequest` | fs_exec/protocol.py:133-164 | No reader ever verifies any manifest at the destination but that of the accepted request |
| `Forward.WholeReads` | fs_exec/rally.py:535-537 | Once a request is done its directory reads back as the accepted one, no more and no less |
| `Forward.OnlyTheResult` | fs_exec/protocol.py:185-209 | No reader ever selects anything at the destination but what the accepted result selects, and once it is durable every reader selects exactly that, whatever status records lie beside it |
| `Forward.DoneStays` | fs_exec/rally.py:536-538 | As long as no journaled names clash, a publication marked done stays whole through every later act of the relay and any power loss |
| `Forward.NestedIsNeverDone` | fs_exec/rally.py:517-533 | A publication with one file above another is never marked done, in no state that the relay reaches |
| `Forward.FitsByName` | fs_exec/rally.py:518-533 | Whether the files of a list can be delivered one after the other depends only on its names: none above another, and no earlier one below a later file's staging name |
| `Forward.RequestIsLayered` | fs_exec/rally.py:307-312 | The names of an accepted request always are such |
| `Forward.EmptyIsClear` | fs_exec/rally.py:518-529 | In an empty destination exactly the list itself can be in the way |
| `Forward.Send` | fs_exec/rally.py:483-538 | With short paths, room in the journal, names that do not clash and enough steps: a list that nothing obstructs is published, and in an empty destination a list is published if and only if no name lies above another and no earlier one below a later file's staging name |
| `Forward.ForwardRequest` | fs_exec/rally.py:545-549 | A complete request in a directory that nobody changes is accepted; what the relay accepted, replayed and read back through the destination's file system, is verified there with the same manifest exactly when the reader's own limits admit it, now and after a power loss, and an incomplete replay is never verified as anything else, as long as no journaled names clash; into an empty destination, with room and enough steps, it always arrives |
| `Forward.ForwardResult` | fs_exec/rally.py:551-555 | The reader's own check on the destination returns the relayed result, or nothing exactly when it is too large, now and after a power loss, as long as no journaled names clash; into an empty destination it arrives if and only if its names are layered |
| `Forward.RelayRequest` | fs_exec/protocol.py:83-118 | From client to reader: a request with case-distinct names, within the limits, is published, accepted, replayed and, into an empty destination with room, verified as the client's own manifest exactly when the reader's limits admit it, now and after a power loss |
| `Counterexamples.UploadIsLost` | fs_exec/rally.py:307-320 | Any accepted request with an upload called by the staging name of a later file, sent to an empty destination: the replay succeeds and no reader ever verifies the request |
| `Counterexamples.TwoUploadsAreAccepted` | fs_exec/rally.py:44-59 | Such a request exists: two uploads, the first called by the staging name of the second, are published by the client and pass every check of the relay |
| `Counterexamples.TwoUploadsAreLost` | fs_exec/rally.py:174-203 | That request is accepted, replayed to the end, and verified by nobody |
| `Counterexamples.NestedIsAccepted` | fs_exec/rally.py:345-357 | A result with artifacts a and a/b meets every condition of the relay's snapshot |
| `Counterexamples.NestedIsNotLayered` | fs_exec/rally.py:517-533 | No list with these names is layered, so into an empty destination it never arrives |
| `Watch.OwnStep` | fs_exec/watcher.py:271-339 | Every step of a watcher keeps its own invariant and the job's |
| `Watch.OthersRely` | fs_exec/watcher.py:145-156 | Whatever one watcher does is within what every other relies on |
| `Watch.NextKeepsInv` | fs_exec/watcher.py:271-339 | Steps of all watchers, joining ones, cancellations and operators keep all invariants together |
| `Watch.SpawnedAtMostOnce` | fs_exec/watcher.py:370-380 | Across racing, crashing and restarting watchers a job's command is spawned at most once |
| `Watch.RejectedNeverRan` | fs_exec/watcher.py:317-331 | A REJECTED or EXPIRED result means the command never was and never will be spawned |
| `Watch.ResultTellsLaunch` | fs_exec/watcher.py:312-328 | With a result COMPLETED, TIMED_OUT or FAILED of the owner's the command was launched exactly once; if it was never launched the result is REJECTED, EXPIRED or CANCELLED |
| `Watch.CancelledIsNotLaunched` | fs_exec/watcher.py:130-143 | Once a cancellation is there, a watcher that has still to look for one, or whose last look found it, never launches the command in the rest of any run, and publishes itself only REJECTED, EXPIRED or CANCELLED |
| `Watch.CancelledNeverRuns` | fs_exec/watcher.py:130-143 | If nobody has passed the last look by then, the command never runs at all, whoever joins later |
| `Watch.AttemptMeans` | fs_exec/watcher.py:271-339 | An undisturbed attempt launches exactly a verified, allowed, approved, timely and uncancelled request whose command starts; each other case has its own result, and there is none exactly if a cleanup failed |
| `Watch.FinalAfterReaping` | fs_exec/watcher.py:429-446 | The claim owner's result exists only if every process it spawned is reaped, and it spawns none later; after a failed cleanup it has published none |
| `Watch.FailedKeepsLock` | fs_exec/watcher.py:106-115 | Once a cleanup failed in a watcher that holds the lock, it holds it in every later state of every run until an operator removes it: no other watcher can take it, and that watcher has unreaped processes and publishes nothing |
| `Watch.Watcher.constructor` | fs_exec/watcher.py:50-73 | A new watcher has left no trace on the job |
| `Watch.Watcher.AcquireSingleton` | fs_exec/watcher.py:96-104 | The lock is obtained only if it was free, undisturbed exactly then, and is then the watcher's own |
| `Watch.Watcher.RecoverInterrupted` | fs_exec/watcher.py:454-470 | A claim without a result is settled as unknown and never replayed, and undisturbed exactly then |
| `Watch.Watcher.ReleaseSingleton` | fs_exec/watcher.py:106-115 | The watcher's own lock is given back exactly if no cleanup failed, and another's is left alone |
| `Watch.Watcher.Claim` | fs_exec/watcher.py:145-156 | The claim is obtained only if it was free, undisturbed exactly then, and then recorded |
| `Watch.Watcher.Prelaunch` | fs_exec/watcher.py:130-143 | Ownership, then cancellation, then time and policy decide, in this order; a cancellation that is there when it begins always stops it, as CANCELLED while the job is owned |
| `Watch.Watcher.Approve` | fs_exec/watcher.py:207-228 | The hook is always reaped, or the attempt ends with a failed cleanup and no result |
| `Watch.Watcher.Execute` | fs_exec/watcher.py:352-446 | Undisturbed, STARTED, launch and status are exactly what the outside decides; the process is reaped before anything is reported; among others it launches only without a cancellation at its beginning, a stop or a passed time |
| `Watch.Watcher.Launch` | fs_exec/watcher.py:365-383 | The launch is behind a last look at ownership and at the cancellation; its status is a refusal exactly if nothing was launched |
| `Watch.Watcher.Finish` | fs_exec/watcher.py:312-328 | The result is published exactly if the claim is still held and none was selected |
| `Watch.Watcher.ProcessJob` | fs_exec/watcher.py:271-339 | One attempt among others: with a cancellation there at its beginning it launches nothing, and its own result is CANCELLED, or REJECTED if not verified; it launches only a verified, approved, timely request; its own result is a refusal or the command's end, only after reaping, and none after a failed cleanup; undisturbed, the whole outcome is stated |
| `Watch.Watcher.Run` | fs_exec/watcher.py:485-504 | A whole life among others: the same of launches, cancellations and own results; undisturbed, it leaves what the attempt leaves, and keeps the lock exactly if a cleanup failed |
| `Capture.StoreOutput` | fs_exec/watcher.py:386-419 | For every interleaving, within the limits: chunk k of a stream is block k of it, whole unless the budget ends in it; both streams are kept up to one cut in the queue, 4096 blocks each; a stream is incomplete only if the budget is spent or its chunks are used up, and both are complete exactly when nothing is marked truncated |
| `Capture.PublishedIsRead` | fs_exec/protocol.py:175-182 | The published result of any capture is what a reader selects, exactly when both files are within the reader's limits |
| `Capture.ShelveKeeps` | fs_exec/protocol.py:175-182 | An exclusive creation never changes what is selected, and a pointer selects the result it was made for |
| `Capture.FirstResultWins` | fs_exec/protocol.py:175-182 | A pointer never shows before its generation is complete, and no later publisher changes the selected result |
| `Capture.ResultDir.PublishFinal` | fs_exec/protocol.py:175-182 | Publishes exactly if no result is selected and the generation's name is free |
| `Wait.BoundOnce` | fs_exec/client.py:147-164 | Under an injective digest a manifest binds at most one sequence of chunks |
| `Wait.Tail.Follow` | fs_exec/client.py:123-138 | At most a burst of chunks is added, each within its bound and seen under its number during the call; what was shown before stays a prefix of what is shown |
| `Wait.Tail.Complete` | fs_exec/client.py:143-164 | What was shown must be a prefix of the manifest, the rest is written only after it matched, and then exactly the bound chunks were written; with patience until the chunks can be read, it succeeds |
| `Wait.WaitFor` | fs_exec/client.py:114-173 | A result is returned only if it is the first selected one and the bytes written to each stream are exactly the chunks it binds, in order, however the files change between reads; if the files hold these chunks and can all be read within the patience, it is returned |
| `Wait.WrittenIsCaptured` | fs_exec/client.py:143-165 | For a result that a watcher published, the client's streams are exactly the captured output |

## Left out

* Transport and text: HTTP, TLS, OAuth and the device-code flow, token storage, HTML parsing, URL
  and link policy, the wording of status texts. What remains of them is an outcome class, a parsed
  header or a text parameter. Throttling and backoff decide which rounds run and may end the Teams
  side of one early; posting and collecting are steps of their own, so the results on runs hold.
* Platform calls: access control lists, symbolic links and reparse points, file locking, threads,
  sockets, subprocess groups. Exclusivity is one atomic step, a process is a flag for alive.
* On Windows directories cannot be flushed; the power-loss results are about systems where they can.
* I/O errors in the middle of a step (a full disk, say) other than the death of the process; the
  cleanup after them removes the staging name, which the recovery after a crash covers.
* Expiry of presence leases at readers, health probes, latency samples, percentiles, service loops and logging; approval
  and command allowlists appear only as a decision.
* The relay's heartbeat copy: it is not monotone over a crash between the file and the stored
  timestamp, so no such claim is made. The periodic polling of known identities and dry runs are
  left out too; `Relay.Rally.Publish` and `Replay` are what a round calls.
* JSON bodies with duplicate keys or non-finite numbers are bodies without a parse. The lenient
  parser of some readers would accept more than the model does.
* Teams message identities are numbers, so two texts of the same number are one identity.
* A Graph nextLink is an arbitrary number in `Sweep.ReadPages`, and the index of the next page of
  a stable thread in the results about whole sweeps.
* Several jobs of one watcher: `Watch` follows one job, so the fences of other jobs and the
  heartbeat of a busy watcher are not there. Losing the heartbeat is one of the reasons for a refusal.
* Artifact collection: which files a pattern selects, and the download of artifacts by clients.
- Bridge.Bridge.Serve: other authors, operators and power losses act at the points where the bridge
  reads its feed and between rounds; that nothing depends on these points is in the transition system,
  where they act between any two steps.
- Harvest.WantedIsJustified: the texts that go with a wanted status are a parameter of `Bridge.Bridge.Report`.
- Clash.MarkerMeansAllIff: that a clash shows is proved of publications none of whose files or staging
  names lies above another file, which are all requests; that without one the marker means all files
  is proved of all publications (`Clash.ClashFreeKeeps`).
- Watch.Watcher.ProcessJob: the whole outcome is stated only for an undisturbed attempt; among others
  it is what `Watch.Warranted` and the invariants say.
* Real time: deadlines are decisions of the environment, and liveness is stated as a bound on steps
  or on sent statuses.

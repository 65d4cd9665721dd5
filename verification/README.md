# Proofs about the desk's moving parts

Deskfolk's daemon holds several small machines whose guarantees only show up over whole runs: a
lease-and-permit protocol for desktop notifications, a WebM to Ogg remuxer, a watch for replies that
loop, filters on byte and text streams, the reshaping of a turn's history for an endpoint, and a few
searches, orders and timers. This project models them in Dafny, one module a file, and proves what
their comments and tests promise.

Where the source updates fields, the model is a class; each of its methods is proved to take one step
of a specification written over plain values, and the theorems are about every run of that
specification. Where the source computes, the model is a function, checked against an independent
reference: a reader of Ogg written from RFC 3533, a recount of history, a line-by-line reading of
Markdown, a tree instead of a byte cursor, a reachability relation instead of a level-by-level search.
What a function decides is also said without it: printers of recordings, replies, citations and
packets whose output reads back, and laws in terms of the input alone.

`dafny verify dfyconfig.toml` checks everything.

## What the modules are

- `Notifications`, `NotificationRuns`, `NotificationLaws`, `NotificationScheduler`: the delivery rows,
  the protocol's steps, its invariant over all runs, what each answer means in plain terms, and the
  class that takes the steps with its scan loop.
- `Bytes`, `OggCrc`, `OggPages`, `OggOpus`, `Webm`, `WebmRecording`, `WebmRefusals`: the remuxer, the
  reader that undoes it, and recordings printed byte by byte to feed it.
- `RepeatHistory`, `RepeatLines`, `RepeatWatch`, `RepeatLaws`: the loop rules over plain history, the
  character machine against a line-based reading, the class with its window and counters, and
  replies that loop or do not.
- `Search`, `Handshake`, `ThinkStrip`, `ThinkBlocks`: filters that must not depend on how a stream is
  cut, and what they leave of a reply.
- `JsStrings`, `Lists`, `Anthropic`, `AnthropicRequest`, `MessageStream`, `StreamSteps`,
  `StreamCalls`, `LoopPictures`, `PictureData`, `Compaction`, `CompactionRecord`: a turn's history as
  the Messages endpoint takes it, its answer as it streams, its pictures, and its compaction.
- `Turnstile`, `ProjectPaths`, `ProjectCitations`, `QuietStretches`, `StretchSettles`, `FilingOrder`:
  the replay's order, the search for a cited path, the organizer's timers and its filing order.

## Where the code and its promise part

Each is kept as the code has it, with the condition under which the promise holds and, where it fails, an input that shows it.

- A head over 255 segments: the remuxer checks audio packets against the 255 segments of a page but
  not the head, so the file reads back exactly when the head fits (`OggOpus.FileReadsBack`).
- A last attempt at clock zero reads as no attempt at all when a test delivery asks for its permit.
  Permits are spaced exactly when no step meets that (`NotificationRuns.SpacedExactly`); none does
  while the clock does not go back (`PermitsSpaced`), and `ClockSetBack` is a run whose clock does.
- The stream filter for thinking keeps a text that trims to just the opening tag, which the
  whole-text form drops (`ThinkStrip.StripStream`).
- The handshake's window is counted in reads, so whether a query past it is caught depends on how the
  stream was cut (`Handshake.Relay` says exactly when, `LateQueryDepends` shows both).
- The project search answers from part of a level when its limit is hit
  (`ProjectPaths.LimitHidesTheSecond`); below the limit it is exact (`ProjectPaths.PathIffOne`).
- The next hop after a compaction may come near the window again, for two reasons: the lines read out
  after the last hop stay and are counted nowhere (`Compaction.LinesMayFillIt`), and what fits is
  taken to be more than the window when more once went through (`Compaction.MayComeNearAgain`).
  `Compaction.NearAgainExactly` says when, `Compaction.NotNearAgain` what the plan does promise.
- The organizer's `chains` never lose an entry: what is stored is the caught promise, and the removal
  compares with the bare one (`FilingOrder.EntryStays`). The filing order does not depend on it.

## Model

| member | source | states |
|---|---|---|
| `NotificationRuns.RunKeeps` | apps/daemon/src/notifications.ts:334-971 | In every run of claim, revalidate, report and test steps, with arrivals, reads, restarts and device switches between them: at most one delivery is pending, claimed or waiting to retry, no notification is in two deliveries that are under way or accepted, what is under way has made fewer than 3 attempts and none exceeds 3, an armed recovery ceiling is the planned ordinal, and the next send is 30 s after the last attempt |
| `NotificationRuns.RunFollows` | apps/daemon/src/notifications.ts:334-971 | However long a run goes on: the planned ordinal never falls, a delivery that is over is never written again, a permit once set never changes, attempts never fall, and a claim token is only ever replaced by a newly minted one |
| `NotificationRuns.SupersededTokenIsDead` | apps/daemon/src/notifications.ts:635-660 | A claim token that was replaced is dead for good: after any further run, revalidating or reporting with it changes nothing |
| `NotificationRuns.AcceptedOnce` | apps/daemon/src/notifications.ts:251-273 | Once a delivery of a notification was accepted, every other delivery of it, past or future, is over and unaccepted |
| `NotificationRuns.ScanStops` | apps/daemon/src/notifications.ts:508-546 | Wherever the scan stops, every row behind it past the planned ordinal was skipped or taken up, candidates are in ordinal order and at most 100, and the row it stopped at, if deferred, is the one it reports |
| `NotificationRuns.BatchItems` | apps/daemon/src/notifications.ts:497-561 | A batch holds only rows that were ready, none past the new planned ordinal; one at or below the old planned ordinal is there only by the recovery scan; and when a recovery row was deferred the planned ordinal stays |
| `NotificationRuns.ClaimJumpsNothing` | apps/daemon/src/notifications.ts:334-633 | Whatever a claim moves the planned ordinal past wanted no attention, was skipped, or is in the new batch: no deferred row and no row beyond the 100 items or the 200 scanned is jumped |
| `NotificationRuns.NothingJumped` | apps/daemon/src/notifications.ts:548-616 | The same of the batch forming alone, row by row |
| `NotificationRuns.OnlyClaimsPlan` | apps/daemon/src/notifications.ts:605-616 | No step but a claim moves the planned ordinal |
| `NotificationRuns.AttachedAtMost` | apps/daemon/src/notifications.ts:236-249 | In every run from a fresh store a notification is attached to at most as many deliveries as the recovery scan was armed, construction counted: any recovery batch consumes its arming, and the first arming finds nothing planned |
| `NotificationRuns.PermitsSpaced` | apps/daemon/src/notifications.ts:675-790 | In every run whose clock does not go back, any two fresh permits, of tests and of notifications together, are issued at least 30 s apart, and the device row remembers the last |
| `NotificationRuns.SpacedExactly` | apps/daemon/src/notifications.ts:675-790 | Whatever the clock does, in every run: the device row remembers the last permit, and all permits are 30 s apart exactly when no step of the run asks for a test's first permit, in order, before 30 s on the clock while the last attempt is at clock zero |
| `NotificationRuns.ForwardNeverSlips` | apps/daemon/src/notifications.ts:942-977 | A clock that does not go back rules such a step out, since every test of a run was queued with the clock at a minute or later |
| `NotificationRuns.FreshPermitSpaced` | apps/daemon/src/notifications.ts:675-790 | One step: a fresh permit comes 30 s after the last attempt, unless that was at clock zero and this is a test; it becomes the last attempt, and only a delivery without a permit gets one |
| `NotificationRuns.TestPermitExactly` | apps/daemon/src/notifications.ts:675-710 | Exactly when a test delivery gets a fresh permit: no last attempt, one at clock zero, or one 30 s ago |
| `NotificationRuns.ClockSetBack` | apps/daemon/src/notifications.ts:680-690 | A run from a fresh store whose clock goes back: a test queued at one minute gets its permit at clock zero and is accepted, and a second test gets its own at one second |
| `NotificationRuns.DeliverMeans` | apps/daemon/src/notifications.ts:635-790 | What a deliver answer stands for: the claim is current and in time, the device is on, the permit is the row's own, and for a batch it is not quiet, the slot is free and some item is still wanted; it may repeat an old permit, which takes no slot |
| `NotificationLaws.BatchIsTakeable` | apps/daemon/src/notifications.ts:301-332 | Whatever a claim puts into a batch may be shown: its category is on, it is no reply or routine result of a muted session, it is not on screen, at least 2 s old, at most 120 s old unless it has an action, wants attention, and whatever held it before was suppressed, or ended in an alert and it is open, unread and looked back at; at most 100 of them |
| `NotificationLaws.BatchExactly` | apps/daemon/src/notifications.ts:520-617 | Of the notifications wanting attention that a claim moves the planned ordinal past, the batch holds exactly those allowed and timely, and none of the allowed ones was too fresh or on screen: an allowed one is in the batch or still ahead |
| `NotificationLaws.ClaimAnswers` | apps/daemon/src/notifications.ts:482-633 | With nothing under way, the slot free and no quiet hours, a claim answers a lease on a new delivery exactly when, among the first 200 looked at, something may be shown that nothing held up stands before |
| `NotificationLaws.ClaimTakes` | apps/daemon/src/notifications.ts:564-633 | And what may be shown among the first 100 looked at is in it: a claimed row with a new token, a lease of 10 s and a deadline of 120 s |
| `NotificationLaws.NothingClogs` | apps/daemon/src/notifications.ts:548-561 | A claim that finds nothing to show moves past all it reached that was not held up, so the window is never stuck on what is over |
| `NotificationLaws.LookBackWaits` | apps/daemon/src/notifications.ts:498-560 | Something looked back at that is too fresh or on screen keeps the look back armed, for any later claim |
| `NotificationLaws.QuietLooksBack` | apps/daemon/src/notifications.ts:236-243 | After a claim in quiet hours the next one outside them looks back at every open and unread notification |
| `NotificationLaws.LeasedExactly` | apps/daemon/src/notifications.ts:343-480 | With a delivery under way a claim leases just that one, under a new token, exactly when it is a pending test or a retry that is due, before its deadline and outside quiet hours, and the slot is free |
| `NotificationLaws.LapsedLease` | apps/daemon/src/notifications.ts:368-396 | A lease that ran out: past the deadline the delivery expires; without a permit it counts for nothing and may be leased again at once; with one it is an attempt, the third the last, and backs off 5 s and then 20 s |
| `NotificationLaws.RetriesBackOff` | apps/daemon/src/notifications.ts:824-848 | A report that was not accepted ends the delivery after the third attempt or its deadline, as unknown or failed as reported; else a later claim leases it exactly from 5 s on after the first attempt, 20 s after the second |
| `NotificationLaws.ReportSettles` | apps/daemon/src/notifications.ts:806-848 | A report counts once, only from the holder of the lease; accepted and suppressed are exactly what was reported so |
| `NotificationLaws.RevalidateExactly` | apps/daemon/src/notifications.ts:635-796 | Exactly when a holder is told to deliver, to come back later, or to give up |
| `NotificationLaws.CancelMeans` | apps/daemon/src/notifications.ts:653-748 | What a cancelled delivery comes to: expired, suppressed when nothing of it is wanted any more, or untouched |
| `NotificationLaws.RetryLaterIsTrue` | apps/daemon/src/notifications.ts:685-779 | Told to come back later, the lease is given up, and a claim leases the delivery again exactly from that time on; if the slot was the reason it is free by then |
| `NotificationLaws.ShownOnce` | apps/daemon/src/notifications.ts:334-847 | From claim to screen: what may be shown is claimed, permitted, and once accepted can never be taken up again |
| `NotificationLaws.TestExactly` | apps/daemon/src/notifications.ts:942-977 | A test is queued exactly a minute or more after the last one asked for, with the device on and nothing under way |
| `NotificationLaws.TestArrives` | apps/daemon/src/notifications.ts:460-712 | A test goes from the button to the screen, in quiet hours too |
| `NotificationScheduler.NotificationDeliveryScheduler.ClaimDesktop` | apps/daemon/src/notifications.ts:334-633 | The class takes just the claim step of the specification, answer included |
| `NotificationScheduler.NotificationDeliveryScheduler.RevalidateDesktop` | apps/daemon/src/notifications.ts:635-796 | The class takes just the revalidate step, with its compare-and-set on the device row |
| `NotificationScheduler.NotificationDeliveryScheduler.ReportDesktop` | apps/daemon/src/notifications.ts:806-847 | The class takes just the report step |
| `NotificationScheduler.NotificationDeliveryScheduler.TestDesktop` | apps/daemon/src/notifications.ts:942-977 | The class takes just the test step: rate limit, device, busy, queued |
| `NotificationScheduler.NotificationDeliveryScheduler.ScanForBatch` | apps/daemon/src/notifications.ts:508-546 | The loop over the attention window, with its three ways to stop, computes the scan |
| `NotificationScheduler.NotificationDeliveryScheduler.ItemDisposition` | apps/daemon/src/notifications.ts:251-273 | One pass over a notification's deliveries finds whether one is live, one was accepted, one ended in an alert |
| `NotificationScheduler.NotificationDeliveryScheduler.ClassifyDesktopCandidate` | apps/daemon/src/notifications.ts:301-332 | A row is skipped, deferred or ready by the same tests in the same order |
| `OggCrc.CrcIsDivision` | apps/daemon/src/opus-remux.ts:126-140 | For every byte sequence the table-driven checksum is the remainder of bit-by-bit division of the message, 32 zeros behind it, by the generator: section 6 of RFC 3533, zero start, no reflection |
| `OggCrc.BuildTable` | apps/daemon/src/opus-remux.ts:126-134 | Every entry is eight steps of the shift register from its index in the top byte |
| `OggCrc.TableCrc` | apps/daemon/src/opus-remux.ts:136-140 | The loop over the bytes computes that remainder |
| `Bytes.LittleEndianRoundTrip` | apps/daemon/src/opus-remux.ts:157-159 | A field written little-endian reads back, wrapped to its width |
| `OggPages.OggPage` | apps/daemon/src/opus-remux.ts:144-169 | The page filled in place, checksum last, is the header, the lacing values and the bodies |
| `OggPages.LacingValues` | apps/daemon/src/opus-remux.ts:145-151 | The inner loop writes 255 for every full segment and one value below 255 for the end of each packet |
| `OggPages.LacingSum` | apps/daemon/src/opus-remux.ts:145-173 | The lacing values add up to the body, and there are as many as `segments` says |
| `OggPages.ChecksumHolds` | apps/daemon/src/opus-remux.ts:167 | Recomputing the checksum over any page written, its field zeroed, gives the value stored |
| `OggPages.PageReadsBack` | apps/daemon/src/opus-remux.ts:144-169 | A reader by RFC 3533 gets every field and both tables of a page back, and what follows it, exactly when its packets have at most 255 segments |
| `OggPages.PageUnlaces` | apps/daemon/src/opus-remux.ts:145-166 | Taking the body apart by its lacing values gives back the packets, none left open |
| `OggOpus.SamplesByConfiguration` | apps/daemon/src/opus-remux.ts:116-124 | The samples of a packet are its frames times the frame size of its configuration in the table of section 3.1 of RFC 6716, for all 32 configurations |
| `OggOpus.PacketLasts` | apps/daemon/src/opus-remux.ts:116-124 | A packet written by sections 3.1 and 3.2 of RFC 6716, whatever its configuration, channels and frame count, lasts its frames |
| `OggOpus.TagsAreComments` | apps/daemon/src/opus-remux.ts:184-187 | The tags are a comment header of section 5.2 of RFC 7845: the vendor behind its length, no comments |
| `OggOpus.PackPages` | apps/daemon/src/opus-remux.ts:189-204 | The packing loop fails exactly when some packet is over 255 segments; else each page is non-empty, closed only because the next packet did not fit, its granule the samples up to its end, the end flag on the last alone |
| `OggOpus.AudioGranule` | apps/daemon/src/opus-remux.ts:190-204 | Each audio page's granule is the total samples of the audio packets finished by it, section 4 of RFC 7845 |
| `OggOpus.FileReadsBack` | apps/daemon/src/opus-remux.ts:175-212 | The file demuxes to head, tags and every packet in order, at most 255 lacing values a page, no packet across pages, sequence numbers from 0, begin flag only first and end flag only last, granules right: exactly when the head has at most 255 segments |
| `OggOpus.HeadTooLong` | apps/daemon/src/opus-remux.ts:189 | With any longer head the file is not readable as written, since no packet ends on the first page read |
| `OggOpus.PackFile` | apps/daemon/src/opus-remux.ts:189-211 | The second half of the remux, pages joined into one file |
| `Webm.ReadVintAt` | apps/daemon/src/opus-remux.ts:31-44 | A variable-length number, its length by leading zeros, marker kept or not, all ones recognised |
| `Webm.ReadWebm` | apps/daemon/src/opus-remux.ts:58-100 | The cursor's walk over the bytes reads what a recursive reader of the remaining bytes reads, errors included |
| `Webm.WalkIsVisit` | apps/daemon/src/opus-remux.ts:63-98 | Walking into masters instead of measuring them gives, on the bytes of any well-formed element tree with known or unknown master sizes, just what a visit of the tree gives |
| `Webm.WebmOpusToOgg` | apps/daemon/src/opus-remux.ts:175-212 | For every input: the error it stops at, or a file of the track's head and non-empty packets that reads back by RFC 3533 exactly when the head fits a page |
| `Webm.RecordingToReader` | apps/daemon/src/opus-remux.ts:58-212 | From a recording's element tree to an Ogg reader: head and packets arrive unchanged and in order |
| `WebmRecording.CodedReads` | apps/daemon/src/opus-remux.ts:31-44 | A number written by section 4 of RFC 8794 in any of eight widths is read as that number, and not as unknown |
| `WebmRecording.RecordingIsHeard` | apps/daemon/src/opus-remux.ts:58-182 | A recording printed byte by byte, any tracks before and after, any blocks of other tracks between, simple or grouped, in any clusters: what is heard is the first Opus track, its packets the bytes behind the flags of its blocks in order, its head the one it came with, or one made by section 5.1 of RFC 7845 with nearest pre-skip, or refused for more than two channels |
| `WebmRecording.NothingToHear` | apps/daemon/src/opus-remux.ts:178-179 | A recording without an Opus track is refused |
| `WebmRecording.RecordedIsPlayed` | apps/daemon/src/opus-remux.ts:175-212 | The file of a printed recording reads back by RFC 3533 as just the head and packets recorded, exactly when the head is under 65,025 bytes |
| `WebmRefusals.LacedIsRefused` | apps/daemon/src/opus-remux.ts:90-96 | A laced block anywhere in a recording, of whatever track, refuses it |
| `WebmRefusals.CutOffIsShorter` | apps/daemon/src/opus-remux.ts:80-81 | A recording that breaks off inside a field is read as though the field ended there |
| `WebmRefusals.UnknownIsRefused` | apps/daemon/src/opus-remux.ts:79 | A field of unknown size is refused |
| `WebmRefusals.NoNumber` | apps/daemon/src/opus-remux.ts:31-36 | A zero byte where a number should begin is refused, and so is a number that breaks off |
| `RepeatHistory.CountersDecide` | apps/daemon/src/hop-limits.ts:180-212 | The counters decide the same-sentence rule: the last five copies of a long enough key are in the window with no sentence closed between them that the window did not hold, exactly when the run's copies and the window's count both reach five |
| `RepeatWatch.RepeatWatch.CloseSentence` | apps/daemon/src/hop-limits.ts:180-212 | Closing a sentence keeps counts, runs, window, its size and the place of the last new sentence equal to a recount of history, and the verdict equal to the rules on it |
| `RepeatWatch.RepeatWatch.Feed` | apps/daemon/src/hop-limits.ts:113-120 | Reads characters up to the first loop and no further; the machine is where reading those characters leads |
| `RepeatWatch.RepeatWatch.Finish` | apps/daemon/src/hop-limits.ts:122-127 | Counts the sentence still open at the end |
| `RepeatLines.MachineIsReference` | apps/daemon/src/hop-limits.ts:122-178 | The character machine closes the same sentences as reading line by line: leading blanks off, lines opening with three backticks or tildes toggle a fence, fenced lines and table rows dropped, the rest split into sentences |
| `RepeatLines.LineRead` | apps/daemon/src/hop-limits.ts:129-163 | One line, whatever state it finds, is read as its stripped text is by the reference |
| `RepeatLines.ProseSplits` | apps/daemon/src/hop-limits.ts:165-178 | Prose read character by character closes where sentences end: at an end mark, at a full stop before a blank, or at the window's length |
| `RepeatWatch.WatchStream` | apps/daemon/src/hop-limits.ts:87-213 | However a reply is cut into pieces, the watch says it loops exactly when some sentence of the line-based reading closes a loop by the rules on history |
| `RepeatWatch.RepeatsItself` | apps/daemon/src/hop-limits.ts:215-220 | The same of a finished text |
| `RepeatLaws.FiveInARowLoop` | apps/daemon/src/hop-limits.ts:58-66 | Five copies of a sentence of eight characters or more in a row that fit 6,000 characters are a loop, whatever came before |
| `RepeatLaws.FiveFitTheWindow` | apps/daemon/src/hop-limits.ts:194-208 | The copies that close a loop of one sentence are five or more within the last 6,000 characters, of at least eight characters |
| `RepeatLaws.FourAreNoLoop` | apps/daemon/src/hop-limits.ts:65-66 | Where no such sentence comes five times none closes a loop by itself |
| `RepeatLaws.AllDifferentNoLoop` | apps/daemon/src/hop-limits.ts:205-211 | A reply that never says a sentence twice does not loop |
| `RepeatLaws.SaidFiveTimesLoops` | apps/daemon/src/hop-limits.ts:180-208 | The same of sentences: five in a row with the same letters and digits loop |
| `RepeatLaws.NeverSaidTwiceNoLoop` | apps/daemon/src/hop-limits.ts:180-211 | And a reply in which no two have the same does not |
| `RepeatLaws.ShareDecides` | apps/daemon/src/hop-limits.ts:209-211 | Of twenty sentences or more in the window fewer than a fifth distinct are a loop, and no others are one by their share |
| `RepeatLaws.ReplyReadsBack` | apps/daemon/src/hop-limits.ts:128-178 | A reply printed from prose, tables and fenced code is read back as the sentences of its prose, end marks and full stops before blanks ending them, and nothing else |
| `Handshake.CursorHandshake.Filter` | apps/conpty-helper/src/handshake.rs:37-58 | One read: until done, what was emitted and what is carried are the input so far and the carry is the longest beginning of the query that ends it; the reply is signalled in the read that completes the query |
| `Handshake.Relay` | apps/conpty-helper/src/handshake.rs:37-71 | A whole stream: caught, the query is the only thing removed and the reply signalled once; not caught, nothing is removed and at most three bytes are still held, none once the window is past |
| `Handshake.EarlyQueryIsCaught` | apps/conpty-helper/src/handshake.rs:37-58 | A first query that ends within 4096 bytes is caught however it is split |
| `Handshake.QuestionIsCaught` | apps/conpty-helper/src/handshake.rs:37-58 | In bytes: `ESC [ 6 n` behind up to 4,092 others is caught under every cut, and what reaches the screen is what stood before and behind it |
| `Handshake.LateQueryDepends` | apps/conpty-helper/src/handshake.rs:49-52 | The same bytes past the window are caught or not depending on the reads |
| `ThinkStrip.ThinkStrip.Feed` | apps/daemon/src/local-model.ts:126-160 | One piece of the stream: what is held and handed on always accounts for the text so far |
| `ThinkStrip.StripStream` | apps/daemon/src/local-model.ts:126-182 | For every cutting of every reply the stream's answer is that of the whole text, except exactly when the text trims at the left to the opening tag alone, which is kept |
| `ThinkStrip.AloneIsDropped` | apps/daemon/src/local-model.ts:173-182 | The whole-text form drops just that text |
| `ThinkBlocks.BlockGoes` | apps/daemon/src/local-model.ts:173-177 | Thinking opened and closed at the front goes, with the blanks about it; what follows stays |
| `ThinkBlocks.OpenBlockGoes` | apps/daemon/src/local-model.ts:175-177 | Thinking never closed leaves nothing |
| `ThinkBlocks.LoneCloseGoes` | apps/daemon/src/local-model.ts:179-180 | A close tag whose opening was not sent goes with all before it |
| `ThinkBlocks.OthersStay` | apps/daemon/src/local-model.ts:179-181 | Any other reply stays as it is, one that talks of the tags later included |
| `Anthropic.ToAnthropicMessages` | apps/daemon/src/anthropic-messages.ts:136-181 | The pass over the messages and the pass that moves results to the front build the turns of the specification |
| `Anthropic.TurnsAlternate` | apps/daemon/src/anthropic-messages.ts:136-181 | The turns start with the user, strictly alternate and are never empty |
| `Anthropic.NothingLost` | apps/daemon/src/anthropic-messages.ts:136-181 | All blocks of all messages survive; each user turn holds its tool results first and then the rest, either kind in its own order, each assistant turn is as gathered, and an opening turn is put first where the bot would speak first |
| `Anthropic.GatherKeeps` | apps/daemon/src/anthropic-messages.ts:141-170 | Merging neighbours of one role loses, adds and reorders nothing |
| `Anthropic.PartitionOrder` | apps/daemon/src/anthropic-messages.ts:171-176 | The move keeps results in order among themselves and the rest in order among themselves |
| `Anthropic.CallsAnswered` | apps/daemon/src/anthropic-messages.ts:136-181 | If each assistant's calls are followed by their results, each assistant turn's `tool_use` ids are the `tool_result` ids that open the next turn |
| `Anthropic.CleanIdIsClean` | apps/daemon/src/anthropic-messages.ts:268-271 | A call's id holds only letters, digits, underscore and hyphen |
| `AnthropicRequest.RequestIs` | apps/daemon/src/anthropic-messages.ts:136-181 | The request is what the lines come to, each block under its line's role and in order: what the user says, the Bot's thoughts exactly where the key matches and there are calls, then what it says, then a `tool_use` for each call with its name and input, and for each tool line one result holding just what it says; turns are cut where the role changes, results lead their turn, and the ellipsis opens exactly where the first block is the Bot's |
| `AnthropicRequest.PartShows` | apps/daemon/src/anthropic-messages.ts:239-262 | A text that is not blank is shown as it stands, a picture from its data URI or its web address in any case, and all else is dropped |
| `AnthropicRequest.ShowsOnce` | apps/daemon/src/anthropic-messages.ts:239-262 | And nothing else is shown of it |
| `AnthropicRequest.CleanIdKeepsPlaces` | apps/daemon/src/anthropic-messages.ts:268-271 | Letters, digits, underscores and hyphens of an id keep their place, every other UTF-16 unit becomes an underscore |
| `AnthropicRequest.CleanIdKeepsLength` | apps/daemon/src/anthropic-messages.ts:268-271 | An id keeps its length in UTF-16 units |
| `AnthropicRequest.CleanIdStays` | apps/daemon/src/anthropic-messages.ts:268-271 | A clean id stays as it is; only an empty one is given a name |
| `MessageStream.AnthropicStream.Feed` | apps/daemon/src/anthropic-messages.ts:352-412 | One event of any kind, malformed ones included, takes just one step of the specification |
| `MessageStream.ReplyHeard` | apps/daemon/src/anthropic-messages.ts:345-424 | A reply streamed block by block is put together whole, however its blocks are cut: its text, its calls with their arguments, from the pieces or else from the start event, and its thoughts with their signatures |
| `StreamCalls.MixedIsHeard` | apps/daemon/src/anthropic-messages.ts:345-412 | Whatever events come, blocks mixed, numbers missing or used again: each call is heard with the pieces sent to the block it began in, in order, or with its input where it stops without any, and the thoughts are the thinking blocks as they stood when they stopped, in that order |
| `MessageStream.CallsNumbered` | apps/daemon/src/anthropic-messages.ts:358-381 | Whatever events come, the n-th tool call that begins among them is the n-th call heard of, with its id and its name, and there are no others |
| `MessageStream.UsageIsWhole` | apps/daemon/src/anthropic-messages.ts:414-423 | However the usage comes in parts, what was handed back is each count as the events last gave it |
| `StreamSteps.StepTells` | apps/daemon/src/anthropic-messages.ts:352-412 | Which events say that the reply began, ended, why, and whether it failed from the endpoint being busy |
| `StreamSteps.TextTells` | apps/daemon/src/anthropic-messages.ts:358-374 | Text comes from text blocks as they start and from their pieces, and from nothing else |
| `StreamSteps.Unnumbered` | apps/daemon/src/anthropic-messages.ts:359-393 | A block without a number takes the next one; pieces without one reach no numbered block |
| `StreamSteps.FinishMeans` | apps/daemon/src/anthropic-messages.ts:291-298 | A stop reason in any case becomes its word in Chat Completions, or stays itself in small letters |
| `StreamSteps.UsageMeans` | apps/daemon/src/anthropic-messages.ts:305-321 | All that was read counts as input, the cache's part also by itself; the total is of both sides or missing |
| `LoopPictures.SentIsSize` | apps/daemon/src/loop-pictures.ts:38-46 | The size read off a picture's data URL is its number of bytes, by the padding of section 4 of RFC 4648 |
| `LoopPictures.LoopPictureSpend` | apps/daemon/src/loop-pictures.ts:48-60 | The nested loops count all pictures of the loop and add up their sizes |
| `LoopPictures.AttachPictures` | apps/daemon/src/loop-pictures.ts:92-116 | Lets go exactly the fewest of the oldest pictures that make room, and appends the hop's |
| `LoopPictures.WithinBudget` | apps/daemon/src/loop-pictures.ts:62-116 | With a hop built under `fitsHop` the loop ends within 12 pictures and 8,000,000 bytes, holding the newer of its pictures and then the hop's |
| `LoopPictures.OnlyPicturesChange` | apps/daemon/src/loop-pictures.ts:96-110 | Nothing but pictures is replaced, each by the note, everything else in its place |
| `LoopPictures.BuiltFits` | apps/daemon/src/loop-pictures.ts:62-66 | A hop built one picture at a time under `fitsHop` is itself within the budget |
| `PictureData.EncodingReadsBack` | apps/daemon/src/loop-pictures.ts:113 | Whatever a picture's bytes, their Base64 decodes to them by section 4 of RFC 4648 |
| `PictureData.LineCarries` | apps/daemon/src/loop-pictures.ts:108-115 | The hop's line holds each picture in call order, its path and then its data URL |
| `PictureData.PictureArrives` | apps/daemon/src/loop-pictures.ts:113 | A picture attached stands in a Messages request with its own kind and all its bytes |
| `PictureData.NoneGoesNeedlessly` | apps/daemon/src/loop-pictures.ts:92-107 | Older pictures go only while with them there would be more than 12 or more than 8,000,000 bytes |
| `PictureData.FitsExactly` | apps/daemon/src/loop-pictures.ts:62-66 | A picture fits a hop exactly when with it there are at most 12, of at most 8,000,000 bytes |
| `Compaction.PromptBytes` | apps/daemon/src/local-model.ts:19-34 | The loop over messages, parts and calls adds up their bytes in UTF-8 |
| `Compaction.SplitLoop` | apps/daemon/src/compaction.ts:56-66 | The backward search that stops at the first line too much finds the first of the Bot's lines from which the hops fit; the two parts are the loop |
| `Compaction.TailIsLongest` | apps/daemon/src/compaction.ts:49-66 | The lines after the last hop always stay; the kept hops start at one of the Bot's lines, fit, and from no earlier one would |
| `Compaction.PairsStay` | apps/daemon/src/compaction.ts:49-66 | A call and its result are never parted by the split, and a result kept has its call kept before it |
| `Compaction.PlanCompaction` | apps/daemon/src/compaction.ts:81-92 | There is no plan exactly when the rest alone comes near what fits or the old part is under 8,000 bytes; with one, old and tail are the loop, bytes are conserved, and the rest, the summary and the kept hops are under three quarters of what fits |
| `Compaction.KeptFits` | apps/daemon/src/compaction.ts:85-88 | Hops are kept only where all together stay within half of what fits and they within a fifth |
| `CompactionRecord.KeptExactly` | apps/daemon/src/compaction.ts:85-88 | A hop stays word for word exactly when it and those after it take at most a fifth of what fits and leave half of it free with the rest and 4,000 tokens of summary, or weigh nothing |
| `CompactionRecord.PlanExactly` | apps/daemon/src/compaction.ts:81-91 | Exactly when there is a plan, in figures |
| `CompactionRecord.CapacityMeans` | apps/daemon/src/compaction.ts:40-42 | What fits is what went through, or what a known window is read at where that is more |
| `CompactionRecord.NearMeans` | apps/daemon/src/compaction.ts:45-48 | A hop comes near a known window from three quarters of it on, and never an unknown one |
| `CompactionRecord.Utf8IsEncoded` | apps/daemon/src/local-model.ts:19-34 | The size of a text is the number of its octets by section 3 of RFC 3629 |
| `Compaction.NotNearAgain` | apps/daemon/src/engine/lifecycle/hop-loop.ts:495-539 | A loop with a plan, compacted for a window it was read against with a note no longer than expected, does not come near that window again when nothing was read out after the last hop, nor, with hops kept, when what was read out is under a quarter of it |
| `Compaction.NearAgainExactly` | apps/daemon/src/engine/lifecycle/hop-loop.ts:495-539 | Exactly when the hop after a compaction comes near the window: the rest, the note, the hops kept and the lines after them reach three quarters of what the window is read at |
| `Compaction.LinesMayFillIt` | apps/daemon/src/engine/lifecycle/hop-loop.ts:495-539 | The lines after the last hop are counted nowhere: for every window and rest that leave room for a plan, some loop has a plan and comes near again |
| `Compaction.MayComeNearAgain` | apps/daemon/src/engine/lifecycle/hop-loop.ts:495-539 | Where more than the window went through before, for every window there is a rest and a loop with a plan, nothing read out after it, that comes near again |
| `Compaction.EntriesOf` | apps/daemon/src/compaction.ts:133-155 | The running map of names labels each result as a look back through all earlier calls does |
| `Compaction.ResultIsNamed` | apps/daemon/src/compaction.ts:133-155 | A result is written under the name of the call it answers |
| `Compaction.ClippedKeeps` | apps/daemon/src/compaction.ts:157-170 | A clipped text keeps its limit in code points, two thirds of them from the start, and drops one stretch whose length it says |
| `Compaction.WriteOutLoop` | apps/daemon/src/compaction.ts:186-198 | The record is all entries at the loosest tier that fits; else the fewest of the oldest are left out, an earlier summary never; over the budget only when the last entry alone is left beside it |
| `CompactionRecord.LineIsShown` | apps/daemon/src/compaction.ts:126-198 | A record written whole shows every line of the old part under its label, what the Bot said, each call with its arguments, each result and line it heard, in full within the tier's limit and else by its two ends |
| `CompactionRecord.KeptIsShown` | apps/daemon/src/compaction.ts:191-197 | One that leaves entries out shows an earlier summary and every entry kept |
| `CompactionRecord.OmissionIsSaid` | apps/daemon/src/compaction.ts:191-203 | An earlier summary is never left out, and how many entries are is said |
| `CompactionRecord.LinesInOrder` | apps/daemon/src/compaction.ts:133-155 | Earlier lines are written first |
| `CompactionRecord.TextHolds` | apps/daemon/src/compaction.ts:126-131 | The text of a line holds every text among its parts, and a word for each picture |
| `Turnstile.Turnstile.MoveOn` | apps/daemon/scripts/demo-tape-order.ts:123-130 | The next position becomes the least not gone, and the clock restarts only if it moved |
| `Turnstile.Turnstile.Await` | apps/daemon/scripts/demo-tape-order.ts:89-103 | A waiting request, between two sleeps, skips, goes, gives up or sleeps as the specification says |
| `Turnstile.AnswerMeans` | apps/daemon/scripts/demo-tape-order.ts:89-103 | In the state a look leaves: a request goes exactly when its entry was not recorded, is gone, or all before it are; it gives up exactly when aborted and not so; it sleeps only while the next entry has not stood, or the request not waited, for its patience |
| `Turnstile.ServedAndGivenBack` | apps/daemon/scripts/demo-tape-order.ts:68-82 | An entry served has gone and one given back has not, no other is touched, and the next starts its wait when it comes up |
| `Turnstile.NextInLineGoes` | apps/daemon/scripts/demo-tape-order.ts:62-74 | The entry next in line goes as soon as it is asked for, and served it lets the one after it go |
| `Turnstile.Turnstile.Serve` | apps/daemon/scripts/demo-tape-order.ts:68-74 | An entry served is gone |
| `Turnstile.Turnstile.GiveBack` | apps/daemon/scripts/demo-tape-order.ts:76-82 | An entry given back is in line again |
| `Turnstile.Run` | apps/daemon/scripts/demo-tape-order.ts:36-130 | After any steps the next position is the least not gone, and only recorded positions are gone |
| `Turnstile.OrderlyInOrder` | apps/daemon/scripts/demo-tape-order.ts:62-130 | A replay that serves only due entries and gives none back hands them out in recorded order, each once, served or skipped |
| `Turnstile.AskedFirstInOrder` | apps/daemon/scripts/demo-tape-order.ts:62-130 | In a replay that serves an entry only once a request for it was told to go, and gives none back, everything goes in recorded order, each entry once |
| `Turnstile.GivenBackBlocks` | apps/daemon/scripts/demo-tape-order.ts:62-82 | After an entry is given back, until it has gone again, no later one that had not gone is due, whatever else happens |
| `Turnstile.SkipsAtMostAhead` | apps/daemon/scripts/demo-tape-order.ts:84-103 | However requests interleave, those waiting for one entry skip no more than the entries ahead of it when they came, plus those given back meanwhile |
| `Turnstile.SkipsInTime` | apps/daemon/scripts/demo-tape-order.ts:84-103 | The first entry skipped at a look has stood next, and the request has waited, for its patience; the next starts its own wait then, so only entries given no patience at all are skipped after it at the same look |
| `ProjectPaths.Search` | apps/daemon/src/project-paths.ts:46-73 | The level-by-level loops end on any tree, endless ones too, with the matches of the first level that has any, or of as much of it as the limit let it read |
| `ProjectPaths.LocateProjectPath` | apps/daemon/src/project-paths.ts:22-77 | As written, from home, absolute or at the root, else by the search, else nowhere, in that order |
| `ProjectPaths.LevelStands` | apps/daemon/src/project-paths.ts:49-63 | The levels hold just the entries that stand in the tree, none hidden, none below a link, each at its own depth |
| `ProjectPaths.ShallowestFound` | apps/daemon/src/project-paths.ts:46-77 | Below the limit nothing that fits stands higher than what was found, all that fits at that depth is listed, and nothing found means nothing fits anywhere |
| `ProjectPaths.PathIffOne` | apps/daemon/src/project-paths.ts:74-77 | Below the limit a path is answered exactly when one entry and only one fits at the least depth at which any does |
| `ProjectPaths.PathIsTheOne` | apps/daemon/src/project-paths.ts:74-77 | And the path and kind answered are that entry's |
| `ProjectCitations.SplitGivesWords` | apps/daemon/src/project-paths.ts:38 | Words put together by any runs of `/` and `\` are split into just those words |
| `ProjectCitations.SplitLosesSeparators` | apps/daemon/src/project-paths.ts:38 | Splitting loses nothing but the separators |
| `ProjectCitations.CitationReads` | apps/daemon/src/project-paths.ts:23-25 | Blanks about a citation and a leading `./` go, and a folder is asked for exactly when separators stand at its end |
| `ProjectCitations.CitationIsFound` | apps/daemon/src/project-paths.ts:22-77 | Of the lookup itself, on a citation made of words: a path is answered exactly when one entry stands alone as the highest that ends in them, and is that entry's, with its kind; the matches are the highest entries' paths written with slashes |
| `ProjectCitations.CitationAsWritten` | apps/daemon/src/project-paths.ts:22-39 | What is not searched for is answered as written, from home or under the project, or not at all |
| `ProjectCitations.AbsoluteAsWritten` | apps/daemon/src/project-paths.ts:29-33 | A path from the root is answered as written or not at all |
| `ProjectCitations.StandsInSight` | apps/daemon/src/project-paths.ts:57 | Nothing found is hidden or in `node_modules`, at any depth |
| `ProjectCitations.SmallTreeIsRead` | apps/daemon/src/project-paths.ts:58 | The limit is never hit in a tree with no more entries in sight than it allows |
| `ProjectPaths.LimitHidesTheSecond` | apps/daemon/src/project-paths.ts:58 | A limit hit between two that fit answers a path, though with one more entry read there is none |
| `QuietStretches.Organizer.NoteTurnEnded` | apps/daemon/src/organizer.ts:679-697 | A turn that ended replaces the plan's timer and lifts the stop |
| `QuietStretches.Organizer.TimerFires` | apps/daemon/src/organizer.ts:686-694 | A timer that goes off begins a stretch that notes the stops seen so far |
| `QuietStretches.Organizer.Resume` | apps/daemon/src/organizer.ts:668-693 | A stretch goes on from one await to the next, settles included, to its call back |
| `QuietStretches.Organizer.SettlePlan` | apps/daemon/src/organizer.ts:558-591 | A settle asked for from outside goes out only when none is out for the plan |
| `QuietStretches.Organizer.SettlePlanLands` | apps/daemon/src/organizer.ts:632-655 | When it lands the plan is free for the next, whatever was filed |
| `QuietStretches.Organizer.NoteTurnStopped` | apps/daemon/src/organizer.ts:699-705 | A stop clears the plan's timer and counts |
| `QuietStretches.Organizer.ForgetPlan` | apps/daemon/src/organizer.ts:707-713 | Forgetting a plan is a stop that also drops its wait for evidence |
| `QuietStretches.Organizer.ClearTimers` | apps/daemon/src/organizer.ts:750-754 | All timers go and the organizer is stopped |
| `QuietStretches.RunKeeps` | apps/daemon/src/organizer.ts:558-713 | Over every interleaving: the organizer knows every timer that will go off and no plan has two, each plan has at most one settle out and `inFlight` holds just those plans, and a stretch calls back at most once |
| `QuietStretches.StopIsKept` | apps/daemon/src/organizer.ts:686-713 | After a stop or a forget of a plan no stretch under way ever calls back for it, and nothing does until a turn of the plan has ended that set a new timer |
| `QuietStretches.ClearedIsQuiet` | apps/daemon/src/organizer.ts:668-693 | While the timers stay cleared no plan is called back for |
| `QuietStretches.LeftAloneCallsBack` | apps/daemon/src/organizer.ts:668-697 | Left alone, a turn that ended leads to a call back whatever was stopped before, its settles refused or not |
| `StretchSettles.SendsExactly` | apps/daemon/src/organizer.ts:558-677 | A stretch sends out a settle exactly when nothing stops or refuses it, none is out for the plan, and it has just checked, or has checked again and evidence was missing |
| `StretchSettles.WayOfStretch` | apps/daemon/src/organizer.ts:668-693 | The order of its awaits, and where it ends early |
| `StretchSettles.LeftAloneSettles` | apps/daemon/src/organizer.ts:668-693 | Left alone, one settle goes out and lands, a second exactly when evidence is missing after it, and it calls back |
| `StretchSettles.TurnSetsTimer` | apps/daemon/src/organizer.ts:679-697 | A turn sets its plan's timer exactly when it is really over and nothing drains |
| `StretchSettles.TimerBeginsStretch` | apps/daemon/src/organizer.ts:686-694 | A timer begins one stretch, which skips to its end for a dormant plan |
| `StretchSettles.StopAndForget` | apps/daemon/src/organizer.ts:699-713 | What a stop and a forget change, and that they change nothing else |
| `StretchSettles.OutsideSettles` | apps/daemon/src/organizer.ts:558-655 | A settle asked for from outside goes out exactly when none is out and nothing refuses it |
| `FilingOrder.Chains.OrganizeMessage` | apps/daemon/src/organizer.ts:541-548 | A message waits for what its session's chain holds and becomes what the next waits for |
| `FilingOrder.Chains.Settle` | apps/daemon/src/organizer.ts:549-555 | A filing that ended, well or not, lets the next begin |
| `FilingOrder.RunKeeps` | apps/daemon/src/organizer.ts:541-556 | In every run a session's messages are filed one at a time in the order they arrived, whether the filings before succeed or fail |
| `FilingOrder.BeginsExactly` | apps/daemon/src/organizer.ts:541-547 | A message may be filed exactly when all of its session before it have been, whatever other sessions do |
| `FilingOrder.NeverStuck` | apps/daemon/src/organizer.ts:541-556 | As long as a message is not filed, one of its session is being filed or may be |
| `FilingOrder.MovesOn` | apps/daemon/src/organizer.ts:541-556 | And what may move does, whether its filing succeeds or fails |
| `FilingOrder.EntryStays` | apps/daemon/src/organizer.ts:548-554 | A session once in the chains never leaves them |

## Left out

- Storage and the outside world: SQL text, HTTP, sockets, the pseudo-terminal, file reads and process
  calls. Rows are sequences and maps, folders a listing function, clocks and permissions arguments.
- Of notifications: retention pruning and deletion, the other writers of the planned ordinal, quiet
  hours by time zone (a boolean here), titles, click references, reconciliation, and presence beyond
  a foreground flag. The unique index on active deliveries is not modelled; the invariant shows that
  the steps never meet it.
- Numbers above 2^53, where JavaScript rounds. Times, ordinals and sizes are whole numbers here.
- The sampling rate a recording gives as a float is a parameter of the remux; it goes only into a head
  that the recording came without.
- Strings hold whole code points, so lone surrogates do not occur; case folding by Unicode and what
  counts as a letter or digit are a parameter of the repeat watch.
- JSON text: a tool call's input as an object, tool definitions as their text. The joining of system
  messages, tool definitions in a Messages body and its thinking fields.
- Anthropic.ToAnthropicMessages: gives the turns alone, not the system text.
- `readAnthropicMessage`, the reading of a Messages answer that was not streamed.
- MessageStream.ReplyHeard: takes a reply's blocks one after the other, as the endpoint sends them;
  events of blocks mixed are covered by `StreamCalls.MixedIsHeard`.
- Compaction.PlanCompaction: shares of what fits are exact reals, without the rounding of doubles. The
  wording of labels, gaps and notes is a parameter.
- Of the turnstile: nudges, logging, the pause after the entry before, and the clock moving within one
  look at the order between two sleeps.
- Windows paths in the project search: absolute is a leading slash. Path joining is a parameter.
- Of the organizer: the model call, its payload and parsing, mirrors, and why a settle is refused
  (one flag here). Promises resolve at once or later, in any order, but fairness is not claimed.
- QuietStretches.Organizer.Resume: does not say what a settle files, only whether evidence is missing.
- Termination and fairness of whole protocols: what is proved is what every step keeps, not that
  steps come.

# Verification of the drivers, the installer and the document migrator

This project models the parts of the repository that move messages through files, cursors and small
state machines, along with the installer and the document migrator, and proves what they
keep over whole runs. `dafny verify dfyconfig.toml` checks everything.

The source changes files, dictionaries and counters step by step, so each part comes in two layers.
Classes and methods (`MailDriver.Inbound`, `TailerModel.Tailer`, `OutboundLines.Driver`,
`ApprovalDriver.Spool`, `BridgeClientModel.BridgeClient`, `HistorySync.BridgeReader`,
`InstallerModel.Installer`, `BackfillModel.Rebuild`, `Routing.MessageStore`,
`Calendar.CalendarDriver`, `DocMerge.MergeMoveDocs`, `LikePattern.MatchesUrl`) change state in place
with the loops the source has, and are proved to do exactly what specification functions say. The
lemmas are about those functions and about every run built from them.

**Mail ingestion** (`Mail*.dfy`). The drains of the Mail.app driver are modelled write by write: the state
of a drain carries the list of all worlds (disk contents) there were, so a crash leaves one of them. The
cursor pair, the parked map with its attempt counts, the archive and the emitted events make up a world. A
run interleaves live drains, boots, flushes of the stale buffer, stops and changes of the mail store, with a
crash at any write. New rows get larger rowids than all earlier ones, and the index holds the rows in scope.
Every disk state is safe, and repeated announcements are bounded by what the crashes account for: a crash that
falls between an event and its checkpoint, and, for rows that an earlier crash left parked above the cursor, queries
that disagree about a body or rows without a Message-ID. A drain that ends announces, files, counts and parks exactly
what its rows, their bodies and the archive call for (`MailExact`). Over crashes announcing at least once is not claimed: a parked row at or below the announcement mark that resolves at boot
is stored and not announced, and the stale buffer is lost with the process.

**Outbound lines** (`Lines`, `Utf8`, `Tailer`, `OutboundLines`, `OutboundRuns`, `WriteImessage`, `InboundLog`,
`FlatLog`). The tailer works on bytes, UTF-8 decoding with replacement follows sections 3 and 4 of RFC 3629, and
lines are cut where Python's `splitlines` cuts them. The callback itself appends to the file it is called for; each of its appends
may fail, and the process may die in it.

**Approvals** (`ApprovalSpec`, `ApprovalBudget`, `ApprovalTrust`, `ApprovalWarrant`, `ApprovalNotices`,
`ApprovalKept`, `ApprovalDriver`). Drafts, records and outbox files are looked at any number of times, in any order,
while PAIs write, the owner decides, modes change and boots renew the token. A crash may fall between a side effect and the write that records it.

**The rest**: the WhatsApp bridge client and its history buffer, the installer, the document merge, the
archive rebuild, thread routing, pattern matching, snapshot differences and the typed-stream decoder, a few
files each at most. `Wrappers`, `Seqs` and `Names` hold what several modules share.

Findings about the code, with the lemmas that say when they happen. Where a lemma says `if and only if` in the table
below the condition is exact; the others are bounds that are met, conditions that suffice, or inputs that show what
can happen, as said here:

- A crash between the parked file and the cursor file leaves parked rows above both cursors; the next
  boot counts such a row twice in one backlog event (`MailTwice.CrashBetweenFiles`,
  `MailTwice.CountsOnceIffSettled`). The comments at `drivers/email/macmail/inbound.py:747-748` and
  `:854-856` say that parked rows lie at or below the cursor; after such a crash they do not.
- A row without a Message-ID that such a crash left parked can be announced twice, since nothing in the archive tells
  that it was read before (`MailNameless.NamelessIsAnnouncedTwice`); the bound over all runs counts these rows
  (`MailRuns.RunsRepeatOnlyAfterCrashes`).
- A sent message whose canonical line cannot be appended is sent again by the next drain
  (`OutboundRuns.UnloggedSendsAgain`); a drain that is stopped never repeats more than what it attempted, and the later
  drains attempt that in the same order (`OutboundRuns.SendsAreRequests`).
- A kernel note whose reason holds a line break can turn into a send (`OutboundLines.LoudReason`,
  `OutboundLines.KernelNoteIsQuiet`), and so can an inbound iMessage with a lone carriage return
  (`FlatLog.CarriageReturnSends`, `FlatLog.FlatLogIsQuiet`), although the comment at
  `drivers/messages/__init__.py:279-282` means to rule that out.
- A crash after a send and before the draft is marked sends again (`ApprovalBudget.CrashSendsAgain`); the
  bound of one delivery plus one per crash is proved for all runs.
- A WhatsApp hand-off file whose send failed is meant to be retried by a later boot
  (`drivers/whatsapp/outbound.py:444-445`), but a boot of the approvals driver makes a new token
  (`drivers/approvals/driver.py:424`), and the file is then thrown away unsent, without a word
  (`ApprovalKept.BootDropsApproved`). Without such a boot it is kept until it is delivered
  (`ApprovalKept.KeptOrDelivered`).
- An approved letter loses its bcc on the way (`ApprovalWarrant.ApprovedLetterLeaves`).
- A send that failed may have gone through, unless the bridge refused it: of all the ways a call can end, only a
  refusal means that nothing was sent (`BridgeProof.UnsentIffRefused`).
- An old flat copy of a dependency makes the installer stage a bundle before it, if a prompt of that name takes the
  place of the copy on the way (`InstallStray.StrayCopyBreaksTheOrder`); the order holds as long as such stray copies
  are out of the way of what is staged (`InstallOrder.InstallPromise`), which is a sufficient condition.
- Two sources that share a staging place make the installer report a cycle where there is none. For a bundle that
  asks for the first, the second and the first again this happens exactly when the first looks stale and no link
  bars the place (`InstallPlaces.SharedPlaceLooksLikeACycle`, `InstallPlaces.SharedIsAcyclic`); other shapes are
  covered by the condition under which no cycle is reported (`InstallProof.NoFalseCycle`). A topical skill
  clears everything below the flat directory of its name, a whole group if it is named like one
  (`InstallPlaces.StagingSpares`, `InstallPlaces.TopicalSkillClearsGroup`).
- The third file name of a message overwrites what is there (`BackfillProof.ThirdNameOverwrites`).
- A sender whose handle normalizes to nothing gets a new thread with every message
  (`Routing.BlankHandleAlwaysOpens`).
- The URL matcher does not anchor a pattern at its ends and takes `_` literally, unlike the SQL filter it is said
  to translate at `drivers/email/macmail/accounts.py:147-150`; it agrees with that filter exactly for patterns
  without `_` that begin and end in `%` (`LikePattern.AgreesIffOpen`, `LikePattern.UnderscoreIsTakenLiterally`,
  `LikePattern.EndIsNotAnchored`).

## Model

| member | source | states |
|---|---|---|
| `MailDriver.Inbound.ParkFailure` | drivers/email/macmail/inbound.py:682-693 | one more attempt for a missing body; the entry goes at the cap |
| `MailDriver.Inbound.IngestRow` | drivers/email/macmail/inbound.py:549-561 | what one row does to the archive and how it is classified |
| `MailDriver.Inbound.RetryParked` | drivers/email/macmail/inbound.py:696-726 | the loop over parked rows equals the specified retry pass |
| `MailDriver.Inbound.Checkpoint` | drivers/email/macmail/inbound.py:729-739 | two writes in this order, parked map first |
| `MailDriver.Inbound.DrainLive` | drivers/email/macmail/inbound.py:742-828 | the live drain leaves exactly the specified disk, buffer and history of writes |
| `MailDriver.Inbound.DrainCatchup` | drivers/email/macmail/inbound.py:831-905 | the boot-time drain leaves exactly the specified disk and history of writes |
| `MailDriver.Inbound.FlushStale` | drivers/email/macmail/inbound.py:660-679 | the stale buffer becomes one event and is emptied |
| `MailSafety.CheckpointKeeps` | drivers/email/macmail/inbound.py:729-739 | saving the parked map before the cursor keeps every intermediate disk safe |
| `MailSafety.LiveIsSafe` | drivers/email/macmail/inbound.py:742-828 | at every crash point of a live drain each in-scope row at or below the cursor is accounted for; cursors, archive and events never move back |
| `MailSafety.CatchupIsSafe` | drivers/email/macmail/inbound.py:831-905 | the same for every crash point of the boot-time drain |
| `MailRuns.NoRowFallsBehind` | drivers/email/macmail/inbound.py:682-905 | after any run with crashes at any write, a row at or below the saved cursor is archived, skipped, parked on disk, or was given up after 30 failures |
| `MailRuns.LiveMemoryIsDisk` | drivers/email/macmail/inbound.py:742-828 | the cursors a live drain returns are the ones on the disk |
| `MailRuns.CatchupMemoryIsDisk` | drivers/email/macmail/inbound.py:831-905 | the cursors the boot-time drain returns are the ones on the disk |
| `MailOnce.LiveStaysCalm` | drivers/email/macmail/inbound.py:742-828 | a live drain that ends announces only rows never announced before, each once |
| `MailOnce.CatchupStaysCalm` | drivers/email/macmail/inbound.py:831-905 | a boot-time drain that ends counts only rows never announced before, each once |
| `MailExact.LiveTellsExactly` | drivers/email/macmail/inbound.py:742-828 | of the parked rows tried again and the new rows, in this order, a live drain that ends files exactly those read for the first time, announces the recent ones among them, one event each, and buckets the stale ones; the cursors end at the highest row taken and the highest announced |
| `MailExact.BootCountsExactly` | drivers/email/macmail/inbound.py:831-905 | a boot that ends files exactly those rows too, and counts in its one event exactly the rows that were read and lie above the mark, parked ones first |
| `MailExact.LiveParksExactly` | drivers/email/macmail/inbound.py:682-726 | which rows are parked after a live drain, with how many attempts: missing bodies once more, at most 29 times; found and vanished ones not at all |
| `MailExact.BootParksExactly` | drivers/email/macmail/inbound.py:831-905 | the same after a boot |
| `MailRuns.CrashlessRunsAnnounceOnce` | drivers/email/macmail/inbound.py:742-905 | over any run of reboots without crashes no rowid is announced twice |
| `MailRepeats.LiveCrash` | drivers/email/macmail/inbound.py:789-823 | a crash point of a live drain costs one repetition if an event went out, and one for each parked row without Message-ID above the cursor whose body a query found |
| `MailRepeats.LivePoints` | drivers/email/macmail/inbound.py:742-828 | every world of a live drain is such a crash point, and a drain that ends costs nothing but for those rows |
| `MailBacklog.BootRisk` | drivers/email/macmail/inbound.py:885-902 | a crash in the boot-time drain can repeat no more than that one backlog event, and nothing if it came before the event |
| `MailRuns.CatchupPoints` | drivers/email/macmail/inbound.py:831-905 | every world of a boot-time drain has emitted at most its one event and moved nothing back |
| `MailRuns.BacklogSettles` | drivers/email/macmail/inbound.py:885-902 | once the cursor is saved, no row of the backlog can be announced again, unless it was parked and the two queries of that boot disagreed about its body |
| `MailRuns.RunsRepeatOnlyAfterCrashes` | drivers/email/macmail/inbound.py:742-905 | over every run and every mail store the number of repeated announcements is at most what the crashes after an event, and the parked rows above the cursor that crashes leave behind, account for; none without crashes |
| `MailNameless.NamelessIsAnnouncedTwice` | drivers/email/macmail/inbound.py:866-880 | a run in which a row without Message-ID, parked above the cursor by a crash, is announced twice |
| `MailTwice.CountsOnceIffSettled` | drivers/email/macmail/inbound.py:841-880 | every backlog counts each row once if and only if no parked in-scope row lies above both cursors |
| `MailTwice.CrashBetweenFiles` | drivers/email/macmail/inbound.py:738-739 | a crash between the two files of a checkpoint leaves such a row |
| `Lines.SplitAppend` | lib/tailer/tailer.py:198 | split(a + b) == split(a) + split(b) when a ends in a newline |
| `Lines.SplitIffCut` | lib/tailer/tailer.py:198 | the lines of a text are exactly the ones it can be cut into at its breaks, and there is one way to do so |
| `Utf8.DecodeAppend` | lib/tailer/tailer.py:192-198 | decoding with replacement commutes with cutting at a newline |
| `Utf8.DecodeEncode` | drivers/imessage/outbound.py:238-245 | both decoders invert the encoder |
| `Utf8.EncodeDecode` | drivers/imessage/outbound.py:238-245 | strict decoding succeeds for encodings only, and then both decoders agree |
| `TailerModel.Tailer.InitialScan` | lib/tailer/tailer.py:139-154 | the loop seeds unknown files at their ends and saves |
| `TailerModel.Tailer.SuppressNext` | lib/tailer/tailer.py:120-128 | registers one suppression, a second equal one collapses into it |
| `TailerModel.Tailer.DrainFile` | lib/tailer/tailer.py:158-213 | the loop over a chunk equals the specified drain, shrinking files and raising callbacks included |
| `TailerModel.PassCompletes` | lib/tailer/tailer.py:198-213 | a pass that does not raise gives each non-empty line one turn in order; one that raises stops at its line |
| `TailerModel.SuppressionIsOneShot` | lib/tailer/tailer.py:201-204 | over every run a line is swallowed at most as often as it was registered, from outside or by any callback |
| `TailerModel.LinesOfAppend` | lib/tailer/tailer.py:192-198 | chunking at newlines does not change the lines delivered |
| `TailerModel.RunKeeps` | lib/tailer/tailer.py:139-213 | for every run of growth, replacements, drains and restarts, raising callbacks included, a cursor never passes a line that did not complete since the file was replaced last |
| `TailerModel.DrainedMeansDelivered` | lib/tailer/tailer.py:158-213 | without raising callbacks the completed lines after a drain are exactly the complete non-empty lines since the seed, or since the file was replaced, once each, in order |
| `TailerModel.ShrunkStartsAnew` | lib/tailer/tailer.py:171-176 | in every run, a drain that finds the file shorter than its cursor hands over nothing and saves the file's size as the cursor; from then on exactly the lines appended behind that size complete |
| `TailerModel.RegisteredIsSwallowed` | lib/tailer/tailer.py:201-204 | a registered line is swallowed where it comes next, and is registered no longer then |
| `OutboundLines.Driver.AppendKernelNote` | drivers/imessage/outbound.py:191-194 | what is appended to the day-file, or nothing when the append fails |
| `OutboundLines.Driver.AppendCanonical` | drivers/imessage/outbound.py:238-245 | what is appended, and the line to suppress, or neither when the append fails |
| `OutboundLines.Driver.ProcessSend` | drivers/imessage/outbound.py:258-307 | one attempt, and the note that is written for each verdict if it can be |
| `OutboundLines.Driver.OnLine` | drivers/imessage/outbound.py:391-409 | a bare non-blank line is one attempt, anything else none; the call raises after a send whose canonical line cannot be appended |
| `OutboundLines.KernelNoteIsQuiet` | drivers/imessage/outbound.py:191-194 | a kernel note yields no send if and only if no later line of its reason is a request |
| `OutboundLines.LoudReason` | drivers/imessage/outbound.py:191-194 | a reason of two lines is read back as a send |
| `OutboundLines.RecordIsQuiet` | drivers/imessage/outbound.py:238-307 | nothing the driver writes is ever a send request |
| `OutboundLines.NoteIsReadable` | drivers/imessage/outbound.py:258-307 | the verdict that leaves a note is said behind its stamp, with its reason; the others leave none |
| `OutboundLines.WordsTell` | drivers/imessage/outbound.py:258-307 | no two verdicts are said in the same words |
| `OutboundLines.CanonicalIsReadable` | drivers/imessage/outbound.py:238-245 | the canonical line carries the text that was sent |
| `OutboundLines.RegisteredIsWritten` | drivers/imessage/outbound.py:407-409 | a logged send registers the one line its record ends with, anything else nothing |
| `OutboundRuns.SendsAreRequests` | drivers/imessage/outbound.py:391-409 | for every interleaving of appends, drains, raising calls, crashes and restarts: the attempts of the drains that ran to their end and the unread requests are together the requests typed, in order, and a drain that was stopped attempted a first part of what is attempted after it |
| `OutboundRuns.SmoothRunsSendOnce` | drivers/imessage/outbound.py:391-409 | when no call is stopped, all attempts and the unread requests are together the requests typed |
| `OutboundRuns.UnloggedSendsAgain` | lib/tailer/tailer.py:205-213 | the bound is met: one append that fails after a send makes the next drain send the same request again |
| `OutboundRuns.QuiescentSends` | drivers/imessage/outbound.py:391-409 | after a quiet drain that ran to its end the attempts of such drains are exactly the requests typed, in order |
| `WriteImessage.ExpandFlatten` | drivers/imessage/outbound.py:140-142 | the two-pass expansion inverts the flattening for every body without the marker |
| `WriteImessage.OneCallOneMessage` | bin/write-imessage/write_imessage.py:151-188 | one call delivers exactly one message, equal to the trimmed body, if and only if the body has no marker and no boundary but newlines |
| `InboundLog.LoggedIsBracketed` | drivers/whatsapp/inbound.py:163-179 | for every text, all lines later cut from the log entry are bracketed if and only if the prefix splits into bracketed lines |
| `InboundLog.PlainSenderIsBracketed` | drivers/slack/inbound.py:188-203 | a sender without a line boundary meets that condition |
| `InboundLog.LogIsReadable` | drivers/whatsapp/inbound.py:163-179 | the log entry is the message, line by line behind the prefix |
| `FlatLog.FlatLogIsQuiet` | drivers/messages/__init__.py:276-287 | the iMessage log entry yields no send if and only if, in the message, whatever stands between two boundaries other than newlines is blank without newlines or begins with a bracket |
| `FlatLog.CarriageReturnSends` | drivers/messages/__init__.py:276-287 | text behind a lone carriage return is read back as a send |
| `FlatLog.FlatIsReadable` | drivers/messages/__init__.py:276-287 | a message without the marker and with no boundaries but newlines can be read back from its entry |
| `Names.FindFree` | drivers/approvals/queue.py:49-56 | the loop returns the first free name within one try more than there are taken names |
| `Names.FirstFreeIsUnique` | drivers/messages/__init__.py:125-141 | that name is determined by the taken names alone |
| `ApprovalDriver.Spool.StagePending` | drivers/approvals/queue.py:59-102 | a pending record under a new id |
| `ApprovalDriver.Spool.CheckGate` | drivers/email/macmail/outbound.py:373-427 | token, mode and allowlist decide between sending, queueing and saving |
| `ApprovalDriver.Spool.ProcessDraft` | drivers/email/macmail/outbound.py:324-471 | one look at a draft does exactly the specified step, retries included |
| `ApprovalDriver.Spool.DeliverEmail` | drivers/approvals/driver.py:118-157 | the hand-off draft and the record's new status |
| `ApprovalDriver.Spool.DeliverInline` | drivers/approvals/driver.py:160-193 | the inline delivery of iMessage and Slack |
| `ApprovalDriver.Spool.DeliverWhatsApp` | drivers/approvals/driver.py:196-230 | the outbox file and the record's new status |
| `ApprovalDriver.Spool.NotifyRejected` | drivers/approvals/driver.py:278-337 | the notice, the failed source draft, and the mark on the record |
| `ApprovalDriver.Spool.ProcessRecord` | drivers/approvals/driver.py:340-385 | one look at a record does exactly the specified step |
| `ApprovalDriver.Spool.ProcessOutbox` | drivers/whatsapp/outbound.py:397-461 | one look at an outbox file does exactly the specified step |
| `ApprovalDriver.Spool.Boot` | drivers/approvals/driver.py:420-436 | a new token, then a look at every record |
| `ApprovalBudget.NextNet` | drivers/approvals/driver.py:340-385 | every step keeps the balance of deliveries and live files of every root |
| `ApprovalBudget.DeliveredAtMostOnce` | drivers/email/macmail/outbound.py:346-471 | over all runs one draft or staged line leads to at most one delivery, plus one for each crash between a side effect and its write |
| `ApprovalBudget.CrashSendsAgain` | drivers/email/macmail/outbound.py:434-463 | the bound is met: such a crash makes the driver send twice |
| `ApprovalWarrant.EveryDeliveryIsJustified` | drivers/email/macmail/outbound.py:373-427 | each delivery of a run is made by one step of it, which warrants it there and then: a look at the draft that holds this letter, in mode yes or in mode ask with all recipients allowlisted, or a look at what the owner approved earlier, word for word |
| `ApprovalWarrant.ApprovedLetterLeaves` | drivers/approvals/driver.py:126-139 | over all runs, a letter sent on a token is the one letter the owner approved for that record, with the same from, to, cc, content, subject and in_reply_to, and the same altogether if and only if that has no bcc |
| `ApprovalNotices.RejectionToldOnce` | drivers/approvals/driver.py:354-363 | a rejection is told once, plus once for each crash between telling and marking |
| `ApprovalKept.FileGoesFor` | drivers/whatsapp/outbound.py:397-461 | a hand-off file goes only in a look that delivers its thread and text, or finds its token wrong, nothing to say, or nobody to say it to |
| `ApprovalKept.KeptOrDelivered` | drivers/whatsapp/outbound.py:442-461 | over every run without a boot and with the recipient known, a hand-off file is still there or has been delivered for its record |
| `ApprovalKept.ApprovedTextIsNotLost` | drivers/approvals/driver.py:196-230 | so an approved WhatsApp message, once handed over, has been delivered or waits in a file of its own |
| `ApprovalKept.ApprovedTextLeaves` | drivers/whatsapp/outbound.py:397-461 | and a look at that file that goes well delivers it |
| `ApprovalKept.BootDropsApproved` | drivers/whatsapp/outbound.py:409-415 | in every run, a file that waits across a boot is thrown away unsent at the next look, and nobody is told |
| `ApprovalKept.InlineLeavesIff` | drivers/approvals/driver.py:160-193 | an approved iMessage or Slack record leaves if and only if it says something to a known thread and the send succeeds; otherwise it fails |
| `ApprovalKept.ApprovedLetterIsSent` | drivers/approvals/driver.py:118-157 | an approved letter is sent by two looks that go well, whatever the mode |
| `ApprovalKept.LookDecides` | drivers/email/macmail/outbound.py:324-471 | a look at a draft sends, queues or saves its letter, each under exactly its condition, and what it queues or saves is that letter |
| `ApprovalKept.DraftEndsAs` | drivers/email/macmail/outbound.py:427-471 | the state of the draft afterwards; a reply whose parent is missing is tried again three times |
| `ApprovalKept.RecordEndsAs` | drivers/approvals/driver.py:340-385 | the state of a record after a look, channel by channel |
| `ApprovalKept.AskedIsSentOnceApproved` | drivers/email/macmail/outbound.py:395-420 | from end to end: a queued letter leaves once the owner approves it and the drivers look without trouble, but for its bcc |
| `ApprovalKept.LineIsSentOnceApproved` | drivers/approvals/queue.py:59-102 | the same for a staged WhatsApp line |
| `ApprovalKept.RejectionIsTold` | drivers/approvals/driver.py:354-363 | a rejected record is told the first time it is looked at, and its draft is given up |
| `ApprovalKept.AskedIsGivenUpOnceRejected` | drivers/approvals/driver.py:278-337 | from end to end: a letter the owner rejects fails its draft and is told |
| `BridgeClientModel.BridgeClient.Send` | drivers/whatsapp/inbound.py:55-71 | a new id, a pending entry and the command, or nothing without a bridge |
| `BridgeClientModel.BridgeClient.AfterWait` | drivers/whatsapp/inbound.py:74-80 | how a settled future or a timeout ends the call |
| `BridgeClientModel.BridgeClient.Resolve` | drivers/whatsapp/inbound.py:82-85 | a reply settles its pending call |
| `BridgeClientModel.BridgeClient.RejectAll` | drivers/whatsapp/inbound.py:87-91 | the loop fails every pending call and empties the table |
| `BridgeProof.EachSendEndsOnce` | drivers/whatsapp/inbound.py:55-91 | in every run each send ends exactly once or is still under way |
| `BridgeProof.SuccessMeansSent` | drivers/whatsapp/libexec/bridge.js:185-222 | success implies that a bridge completed that very recipient and text |
| `BridgeProof.SentAtMostOnce` | drivers/whatsapp/libexec/bridge.js:185-222 | no bridge completes the same send twice, whatever is late or restarted |
| `BridgeProof.NothingHangs` | drivers/whatsapp/inbound.py:256-273 | without a bridge nothing is pending and every unfinished call has its future settled |
| `BridgeProof.PendingIsUnderWay` | drivers/whatsapp/inbound.py:55-91 | in every run exactly the calls that await their reply are pending, and perhaps cancelled ones |
| `BridgeProof.IdsAreNew` | drivers/whatsapp/inbound.py:51-53 | the id of a new send was never used, across restarts |
| `BridgeProof.ReplySettlesOnlyItsOwn` | drivers/whatsapp/inbound.py:310-314 | a reply changes its own call only, and nothing if that is no longer pending |
| `BridgeProof.UnsentIffRefused` | drivers/whatsapp/inbound.py:73-80 | over all runs, the verdict of a call means that nothing was sent if and only if it is a refusal |
| `BridgeProof.MayBeSent` | drivers/whatsapp/inbound.py:73-80 | every other verdict, a failed write, a timeout, a disconnect or a cancelled wait included, can meet a send that a bridge completed |
| `BridgeProof.EachSendCanEnd` | drivers/whatsapp/inbound.py:66-80 | a call under way can end within two steps of its own |
| `BridgeProof.ReplyDecides` | drivers/whatsapp/inbound.py:66-85 | in every run, once the reply to a call has been read, the call ends in success if the reply says so and as refused if not |
| `BridgeProof.LossDecides` | drivers/whatsapp/inbound.py:87-91 | once the bridge is gone, a call without a reply ends as disconnected |
| `HistorySync.NothingIsLost` | drivers/whatsapp/inbound.py:283-342 | at every moment, flushed and held messages are the history so far, and a timer is set while anything is held |
| `HistorySync.LiveIsAnnounced` | drivers/whatsapp/inbound.py:344-351 | at every moment the announced messages are exactly the live ones with a sender and a text, in order |
| `HistorySync.FiringClosesGroup` | drivers/whatsapp/inbound.py:289-296 | a timer that fires announces what is held as one group |
| `HistorySync.EofFlushesAll` | drivers/whatsapp/inbound.py:376-381 | at EOF every history message is in exactly one backlog event, in order |
| `HistorySync.BrokenStreamFlushesLater` | drivers/whatsapp/inbound.py:289-296 | a reader that breaks off loses nothing once its timer fires |
| `HistorySync.SummaryIsExact` | drivers/whatsapp/inbound.py:384-402 | per thread the count, last text and day files of its own messages; counts add up to the total |
| `HistorySync.BridgeReader.ReadStdout` | drivers/whatsapp/inbound.py:298-381 | the read loop, for every stream and timer schedule, emits all history messages in order and announces all live ones in order |
| `HistorySync.BridgeReader.EmitBacklog` | drivers/whatsapp/inbound.py:384-402 | the loop builds exactly that summary |
| `InstallerModel.Installer.InstallFromSource` | bin/paiman/paiman.py:564-657 | the recursive method equals the specified install and ends on every dependency graph |
| `InstallerModel.Installer.CopyStale` | bin/paiman/paiman.py:518-542 | the walk over shipped files decides staleness |
| `InstallerModel.Installer.CopyIntoPlace` | bin/paiman/paiman.py:639-657 | clearing, removing and copying equal the specified staging |
| `InstallProof.NoFalseCycle` | bin/paiman/paiman.py:584-629 | on an acyclic registry whose staging paths are apart, diamonds included, no install reports a cycle, whatever was staged before |
| `InstallProof.StagedOnce` | bin/paiman/paiman.py:564-657 | a successful install stages each bundle at most once, and all it staged is current in the end, whatever was staged before |
| `InstallOrder.InstallPromise` | bin/paiman/paiman.py:564-657 | when stray copies are out of the way, a successful install stages each bundle after the dependencies it installs, and in the end the dependencies of each are found where the installer looks for them, up to date |
| `InstallOrder.TitledByManifest` | bin/paiman/paiman.py:518-542 | where names and kinds are read from the manifests and staging paths are apart, no copy of one source passes for another |
| `InstallOrder.StageSatisfies` | bin/paiman/paiman.py:812-826 | staging one bundle leaves every dependency that was found up to date so, be it at its place or in a stray copy |
| `InstallOrder.CurrentIffFilesAgree` | bin/paiman/paiman.py:518-542 | a copy is current if and only if every shipped file is there with the same content |
| `InstallOrder.UnknownDependency` | bin/paiman/paiman.py:604-618 | a dependency the registry does not know is left alone if something of that name is staged, and ends the install otherwise |
| `InstallOrder.DepsByKind` | bin/paiman/paiman.py:597-602 | which kinds of bundles have their dependencies resolved |
| `InstallOrder.BrokenDependency` | bin/paiman/paiman.py:604-629 | so does a dependency without a readable manifest |
| `InstallStray.StrayCopyBreaksTheOrder` | bin/paiman/paiman.py:600-657 | in every registry of a given shape, well ordered as it is, one old flat copy makes a successful install stage a bundle before its dependency |
| `InstallStray.SomeAreCrossed` | bin/paiman/paiman.py:192-234 | there are such registries, without cycles or shared places |
| `InstallPlaces.ApartIffNoClash` | bin/paiman/paiman.py:192-234 | staging paths of distinct bundles stay apart if and only if no two clash by kind, topic and name |
| `InstallPlaces.StagingSpares` | bin/paiman/paiman.py:639-657 | what lies elsewhere survives a staging if and only if it is not below the flat directory of a topical skill's name |
| `InstallPlaces.StagingReplaces` | bin/paiman/paiman.py:653-657 | where a bundle is staged its copy is all there is |
| `InstallPlaces.TopicalSkillClearsGroup` | bin/paiman/paiman.py:639-651 | a topical skill named like a group passes the name checks and removes that group |
| `InstallPlaces.SharedPlaceLooksLikeACycle` | bin/paiman/paiman.py:584-629 | asked for in turn, two sources that share a place lead to a reported cycle if and only if the first looks stale and no link bars the place |
| `InstallPlaces.SharedIsAcyclic` | bin/paiman/paiman.py:584-591 | although nothing there depends on itself |
| `BundleCopy.FreshCopyIsNotStale` | bin/paiman/paiman.py:491-515 | copying keeps the registry-owned files as they are, so a fresh copy is never stale |
| `BundleCopy.WalkFindsOwned` | bin/paiman/paiman.py:499-512 | the walk collects exactly the files no part of whose path is ignored |
| `BundleCopy.Walk` | bin/paiman/paiman.py:499-512 | the recursion over one growing collection finds them all |
| `BundleCopy.OwnedAgreeIff` | bin/paiman/paiman.py:518-542 | comparing the owned files decides whether every shipped file is there with the same content |
| `DocMerge.LeafGoesOrStays` | bin/paifs_init/paifs_init.py:358-384 | a source file stays if and only if the destination bars its way, and otherwise is at the destination |
| `DocMerge.DestinationStays` | bin/paifs_init/paifs_init.py:358-384 | no destination file or link changes |
| `DocMerge.DirectoryStays` | bin/paifs_init/paifs_init.py:358-384 | no destination directory goes, an empty one included |
| `DocMerge.DirectoryStaysIffConflict` | bin/paifs_init/paifs_init.py:370-374 | a source directory stays if and only if there is a conflict at or below it |
| `DocMerge.EntryGoesIffPeaceful` | bin/paifs_init/paifs_init.py:358-384 | something of a source entry stays if and only if there is a conflict in it |
| `DocMerge.NothingInvented` | bin/paifs_init/paifs_init.py:358-384 | every file or link of the new destination was at that path before, on one side |
| `DocMerge.NoDirectoryInvented` | bin/paifs_init/paifs_init.py:358-384 | so was every directory |
| `DocMerge.SecondMergeIsIdle` | bin/paifs_init/paifs_init.py:358-384 | merging what is left once more changes nothing |
| `DocMerge.MergeLosesNothing` | bin/paifs_init/paifs_init.py:358-384 | all that is said of files and links, for whole directories |
| `DocMerge.MergeKeepsDirectories` | bin/paifs_init/paifs_init.py:358-384 | all that is said of directories: none of the destination goes, none of the source is lost, and those that stay are those in conflict |
| `DocMerge.MergeMoveDocs` | bin/paifs_init/paifs_init.py:358-384 | the recursive loop equals the specified merge |
| `BackfillModel.Rebuild.PrescanSeen` | drivers/email/macmail/backfill.py:204-223 | the loop builds the specified map |
| `BackfillProof.PrescanIsFirst` | drivers/email/macmail/backfill.py:204-223 | it knows exactly the Message-IDs it meets, each with the file where it is met first |
| `BackfillModel.Rebuild.Persist` | drivers/email/macmail/inbound.py:398-420 | the in-memory path of persisting a message |
| `BackfillModel.Rebuild.Run` | drivers/email/macmail/backfill.py:345-368 | the nested loops complete, as a number of steps of the specified process |
| `BackfillProof.SeenAnswersAsScan` | drivers/email/shared.py:96-133 | the map gives the same flag, file and archive as the full scan, and the same parent if and only if an archived parent is in the same account |
| `BackfillProof.ScanIsFunctional` | drivers/email/shared.py:162-185 | the scan leaves no choice of answer |
| `BackfillProof.RebuildIsExact` | drivers/email/macmail/backfill.py:322-368 | crashed and resumed any number of times, a completed rebuild holds exactly the wanted Message-IDs, one file each |
| `BackfillProof.InterruptionsDoNotMatter` | drivers/email/macmail/backfill.py:322-368 | two completed rebuilds hold the same Message-IDs however they were interrupted |
| `BackfillProof.ThirdNameOverwrites` | drivers/email/shared.py:122-133 | a write keeps every file if and only if the message is known, a name is free, or the third name holds this very message |
| `BackfillProof.UnnamedIsWrittenAgain` | drivers/email/shared.py:116-120 | persisting a message twice writes it twice if and only if it has no Message-ID |
| `BackfillProof.WrongListingSkips` | drivers/email/macmail/backfill.py:347-363 | the last row is kept if and only if its listed Message-ID is not known, whatever its own |
| `Routing.NormalizeTwice` | drivers/messages/__init__.py:54-62 | normalizing a handle twice changes nothing more |
| `Routing.AlikeIff` | drivers/messages/__init__.py:54-62 | two handles are taken for the same if and only if they are numbers alike but for blanks, dashes and parentheses, or addresses alike but for case and outer blanks |
| `Routing.MessageStore.ResolveSlug` | drivers/messages/__init__.py:74-108 | the loop returns the first thread that takes the message |
| `Routing.ResolveIsFirst` | drivers/messages/__init__.py:74-108 | that thread takes the message and none before it does |
| `Routing.MessageStore.UniqueSlug` | drivers/messages/__init__.py:125-141 | the first free suffix |
| `Routing.MessageStore.CreateThread` | drivers/messages/__init__.py:192-233 | the meta file of a new thread, with its roster |
| `Routing.MessageStore.IngestMessage` | drivers/messages/__init__.py:306-332 | one message does exactly the specified step |
| `Routing.IngestKeeps` | drivers/messages/__init__.py:290-345 | one thread per chat and one non-group thread per handle; a group message lands in its own chat's thread; a new thread has a new name; old threads stay |
| `Routing.NewThreadHolds` | drivers/messages/__init__.py:192-233 | a new group thread names its chat and holds exactly the given members and the sender; a new one-to-one thread holds the sender only |
| `Routing.NewNameIsOwn` | drivers/messages/__init__.py:125-141 | a new thread gets the first free form of its name, never the name of a person without that handle; known people do not change, a new sender becomes one |
| `Routing.RunKeeps` | drivers/messages/__init__.py:290-345 | the same over every run of messages |
| `Routing.GroupRouteIsUnique` | drivers/messages/__init__.py:94-102 | the thread of a group message does not depend on directory order |
| `Routing.BlankHandleAlwaysOpens` | drivers/messages/__init__.py:82-108 | a one-to-one message opens a thread if and only if its handle normalizes to nothing or no thread has it |
| `LikePattern.GreedyIsComplete` | drivers/email/macmail/accounts.py:146-159 | leftmost search succeeds if and only if some in-order placement of all fragments exists |
| `LikePattern.AcceptsIsOpenLike` | drivers/email/macmail/accounts.py:146-159 | a URL is accepted if and only if the `%` reading of the pattern, open at both ends, matches |
| `LikePattern.LikeIsAccepted` | drivers/email/macmail/accounts.py:100-138 | every URL the `%` reading matches is accepted, with anything before and behind it |
| `LikePattern.AgreesIffOpen` | drivers/email/macmail/accounts.py:146-159 | the driver accepts exactly the URLs the query matches if and only if the pattern has no underscore and a `%` at both ends |
| `LikePattern.EndIsNotAnchored` | drivers/email/macmail/accounts.py:146-159 | the converse fails: longer mailbox names are accepted |
| `LikePattern.UnderscoreIsTakenLiterally` | drivers/email/macmail/accounts.py:146-159 | all URLs the query matches are accepted if and only if the pattern has no underscore |
| `LikePattern.MatchesUrl` | drivers/email/macmail/accounts.py:146-159 | the loop decides placement, and open matching |
| `Calendar.ListsAreDisjoint` | drivers/calendar/inbound.py:142-151 | no event is in two of the three lists |
| `Calendar.DiffIsUnique` | drivers/calendar/inbound.py:142-151 | the lists are determined by the two snapshots |
| `Calendar.SilentIffAlike` | drivers/calendar/inbound.py:332-339 | nothing is announced if and only if nothing changed that the digest can tell |
| `Calendar.ApplyFollows` | drivers/calendar/inbound.py:142-151 | applying a difference carries anything like the old snapshot to something like the new one |
| `Calendar.AlikeIsEqual` | drivers/calendar/inbound.py:91-95 | with an injective digest, alike snapshots are equal |
| `Calendar.CalendarDriver.Diff` | drivers/calendar/inbound.py:142-151 | sorted lists of new, changed and removed events |
| `Calendar.CalendarDriver.Watch` | drivers/calendar/inbound.py:332-339 | over any run of snapshots the folded announcements keep up with the latest one |
| `TypedStream.DecodesItsEncoding` | drivers/imessage/inbound.py:82-111 | decoding inverts encoding for every text in every length form, behind anything without the marker |
| `TypedStream.DecodesOnlyEncodings` | drivers/imessage/inbound.py:85-111 | a text comes back only from bytes that hold it behind the first marker, inside the data |

## Left out

- `MailRuns.RunsRepeatOnlyAfterCrashes`: a bound, not an equality; what it adds for rows that a crash left parked above the cursor is spent only if they are announced again.
- `MailDriver.Inbound.IngestRow`: archiving a message is one write; thread links and parent links are not part of this model, nor is the shape of a backlog event beyond the rows it counts.
- `MailDriver.Inbound.FlushStale`: happens between drains; the source can also run it while a drain is under way in its thread.
- `OutboundLines.Driver.ProcessSend`: follows the iMessage driver; Slack has no marker expansion and WhatsApp sends through the bridge; the events emitted are left out.
- `OutboundLines.Driver.OnLine`: the echo registration around a send is left out.
- `OutboundRuns.SendsAreRequests`: an append is made wholly or not at all, and a call that is stopped counts as an attempt wherever it stops; assumes that failure reasons and thread names hold no line break, and that other writers append whole lines.
- `ApprovalBudget.DeliveredAtMostOnce`: counts a WhatsApp delivery when the bridge reports success; after a timeout the hand-off file stays and a message that did leave can leave again. PAIs leave finished drafts alone, name no file like a hand-off draft, and cannot read the token; records are never deleted.
- `ApprovalWarrant.EveryDeliveryIsJustified`: allowlist matching and the script text are not modelled; lower case is ASCII only.
- `TailerModel.DrainedMeansDelivered`: a file that is replaced by one not shorter than its cursor is read on from the cursor, since nothing tells the tailer; what lies before it in the new file is never handed over.
- `ApprovalKept.KeptOrDelivered`: says nothing across a boot, see `ApprovalKept.BootDropsApproved`, nor of files whose recipient cannot be resolved, which are thrown away.
- `BridgeProof.SentAtMostOnce`: a send counts as performed when the messaging library reports it done.
- `BridgeProof.UnsentIffRefused`: for the same reason a library that fails after it has sent counts as one that did not send.
- `InstallOrder.InstallPromise`: hooks leave shipped files alone, and stray copies that match a source are out of the way of what is staged, which suffices for the order but is not always needed; activation slots, hooks and reload events are left out.
- `BundleCopy.FreshCopyIsNotStale`: trees are seen through their links; a dangling link, on which the copy fails, is not modelled.
- `InstallPlaces.ApartIffNoClash`: names and topics hold no slash; the source checks that for names only.
- `DocMerge.MergeMoveDocs`: directories are values, not shared mutable trees; failures of single moves are left out.
- `BackfillProof.RebuildIsExact`: Message-IDs match exactly instead of by substring, the index lists the Message-ID of the message or none, and third file names are not shared; parsing is fixed per row.
- `Routing.IngestKeeps`: names proposed for new threads and the hash of group ids are parameters; one-to-one messages may land in group threads through their rosters, as in the source.
- `Calendar.CalendarDriver.Watch`: crashes between announcing and saving are left out, and uids are numbers.
- AppleScript, EventKit, kqueue, sockets, the messaging libraries, YAML, JSON and SQLite are foreign; each appears as a step that may succeed or fail, or as a typed map.
- The user interface, dashboards, voice and note-taking, one-shot migrations, and the small file tools are not modelled.

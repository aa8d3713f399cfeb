# iapeer: a Dafny model of its delivery core

iapeer carries messages between agent peers on one host. This project models the parts of its core that promise not
to lose, repeat or misread a message, and proves what they keep.

- **Envelopes** (`Text`, `EnvelopeCodec`, `EnvelopeAttributes`, `EnvelopeRoundTrip`, `EnvelopeStream`, `EnvelopeMerge`): the wire
  printer, the read-both decoder, the streaming extractor with its resynchronisation, and the compact form shown to
  an agent. Regular expressions are explicit scans over `seq<char>`.
- **Failover evidence** (`RefusalEvidence`, `ClaudeEvidence`, `CodexEvidence`, `FailoverProof`): the decision, from a
  native transcript, whether the model did any work before its provider refused. Transcripts are sequences of rows
  reduced to the fields the decision reads.
- **Failover custody** (`FailoverCustody`): the durable record that moves watching, claimed, dispatching,
  transferred / review / finished. A pass is a list of atomic events (each file operation, kill and send); a crash cuts
  it after any of them; another record of the same hosting identity may take or drop the shared claim file.
- **Delivery acceptance** (`AcceptanceReconciler`): the reconciler of uncertain submits, its writer, the operator's
  closure, notification slots, the dead-drain timer and the deletion, in the same event style.
- **Capability reloads** (`ReloadStore`, `ReloadRaces`, `SurfaceWatch`): request files with separate completion
  markers, the lock-free races between readers, updates, completions and collectors, and the watch that compares
  surfaces with the baseline of the last launch.
- **Streams and windows** (`FleetTailer`, `NoticeBoard`, `GoalWatch`): the incremental line tailer, the TTL/dedup
  board, and the overlapping sweeps that feed it without a state file.
- **Approval toggle** (`Json`, `ApprovalSettings`): installing and removing a group in a runtime's settings file, with
  key order.

The two protocols are judged by a law: an observer follows a trace of events, `Permits` says what may happen next, and
`Lawful` that a whole trace obeys it. The passes know nothing of the law. A pass that did nothing would obey it too, so
what an uncut pass sends, writes and leaves behind, and on which answers, is stated apart (`WatchingPass`, `CustodyPass`,
`CustodyEnds`; `ToldIff`, `PassDoes`, `PassLeaves`, `NothingHangs`). Each class (`Custody`, `Reconciler`, `Store`,
`Watch`, `FleetEventTailer`, `Notices`, `SettingsFile`) follows iapeer's own stepwise code, proved to do what its
specification function says; the lemmas are about those functions and about all runs built from them.

Some promises turned out not to hold as stated. For each a lemma exhibits the failure, and where a guard decides it
another gives the exact condition:

- a 200-character topic can escape past the 1024-character tag bound; such an envelope is never extracted from any
  stream (`LongTopicIsDropped`, `ExtractedIffTagFits`), and what it carries is scanned as if it stood outside an
  envelope, so that an envelope quoted in its message is extracted as sent (`ContentIsScanned`, `QuotedIsExtracted`);
- prose that opens an envelope and never closes its tag is merged with the next envelope: one text comes out for both,
  under the sender the prose names, exactly when the merged tag stays within the bound and names a sender
  (`OpenMarkerSwallowsIff`, `ProseSwallowsIff`, `NamedStartMisattributes`); and an envelope torn inside its message
  takes the next one, header and message, for the end of its own (`TornSwallowsNext`);
- the claim that keeps new work off a failed host is lost when a second record of the same identity settles first
  (`ClaimCanBeLost`, `ClaimHeldIffNoRival`), and outlives a settlement exactly when the settling save was cut before
  dropping it and nobody has claimed since (`CutSettlementKeepsClaim`, `SettledHoldsClaimIff`, `HeldMeansCut`);
- the reconciler acts on a listed copy: `failed` can be written after the send checkpoint
  (`StaleListingFailsAfterPaste`, `FailedIsHonestIffRereadAgrees`); a writer that finishes after the alert time undoes
  recorded notices (`LateWriterRegresses`); a crash between seeing a live process and clearing the recorded death
  shortens the drain (`LostSightingExpiresEarly`); and a failed notice of the core itself is deleted after its week
  exactly when no operator is configured (`FailedCoreRemovedIff`, `CoreSlotStaysUnset`);
- an update that saves a TTL or more after its snapshot can bring back a request that was completed and collected
  meanwhile (`LateUpdateRevives`, `SaveRevivesIffCollected`);
- three ways a surface difference is missed (`WriteDuringLaunchIsMissed`, `UnrecordedLaunchIsMissed`,
  `AdoptionHidesDifference`); a live process is safe from any write exactly when its baseline is what it has read or a
  reload is owed (`CoveredWhateverIsWrittenIff`);
- a stalled goal can be lost when the sweep that should have read it fails, because the boundary moves all the same
  (`StallLostToOneFailure`, `FailedReadLosesStall`, `SelectedIffFirstReaderReaches`), and one that is selected is told
  twice exactly when its raises span the TTL (`WatchRaisesOnceIff`);
- a rotation is seen exactly when the new file is shorter than the offset held (`RotationSeenIff`); otherwise the head of
  the new file is never delivered (`UnseenRotationLosesTheHead`);
- a dedup key stands for one condition exactly when no part of the condition holds a bar (`BarConfuses`,
  `KeyIdentifiesIff`);
- the approval round trip is the identity exactly on clean settings; a claude settings file that was absent stays
  behind as `{}`, and an installed file is restored by off-and-on only when our group ends its list
  (`ClaudeFileRoundTripIff`, `CodexFileRoundTripIff`, `ToggleRestoresIff`), while the header of
  `src/approval/install.ts` promises a byte-identical round trip.

Check the project with `dafny verify dfyconfig.toml` (Dafny 4.11).

## Model

| member | source | states |
|---|---|---|
| EnvelopeAttributes.UnescapeEscape | src/codec/index.ts:213-221 | unescaping undoes escaping on every text, because `&amp;` is undone last |
| EnvelopeAttributes.AttrValueIsLookup | src/codec/index.ts:207-211 | a name lookup in a rendered open tag finds that attribute's value and no text of another attribute, whatever a final topic holds |
| EnvelopeCodec.IndexOfOutsideCdata | src/codec/index.ts:132-145 | the scanning loop finds the first occurrence outside CDATA, -1 when there is none or a section is unterminated |
| EnvelopeCodec.ReadTagContent | src/codec/index.ts:157-184 | the content loop yields the text between the tags with CDATA sections joined, or nothing |
| EnvelopeCodec.ExtractEnvelopes | src/codec/index.ts:295-326 | the extraction loop, with its waiting and one-character resynchronisation, is the recursive extraction the stream theorems are about |
| EnvelopeRoundTrip.PastCdata | src/codec/index.ts:83-87 | reading a printed CDATA body returns any value, `]]>` included, and no needle is found inside it |
| EnvelopeRoundTrip.PresentBodyCarries | src/codec/index.ts:352-354 | a body shown to an agent reads back as its value whether it was left raw or wrapped |
| EnvelopeRoundTrip.DecodeLayout | src/codec/index.ts:228-257 | decoding any printed layout is lookup in its attribute list: no text it carries is taken for markup |
| EnvelopeRoundTrip.LayoutSays | src/codec/index.ts:223-257 | a layout decodes exactly when it names a personality and a runtime by either name; short names win, old spellings of the intelligence are understood and unknown ones dropped, and every field is that of the first attribute of its name |
| EnvelopeRoundTrip.WireText | src/codec/index.ts:96-116 | the wire text attribute by attribute and line by line, as the parsers of other runtimes know it |
| EnvelopeRoundTrip.WireTopicIs | src/codec/index.ts:103-106 | a topic travels exactly when something is left of it trimmed, cut to its first two hundred characters |
| EnvelopeRoundTrip.WireRoundTrip | src/codec/index.ts:96-116 | decoding a built wire envelope returns names, intelligence, stamp, trimmed and cut topic, attachments and the message exactly |
| EnvelopeRoundTrip.AttachmentsRoundTrip | src/codec/index.ts:252-254 | a list of attachments survives exactly when each is non-empty, trimmed and free of newlines |
| EnvelopeRoundTrip.PresentationPreservesMeaning | src/codec/index.ts:388-407 | decoding the agent-facing form of anything decodable gives the same envelope, only the stamp compacted |
| EnvelopeRoundTrip.WirePresentation | src/codec/index.ts:371-387 | every field of a built envelope reaches the agent through the compact form |
| EnvelopeRoundTrip.AgentText | src/codec/index.ts:388-407 | what an agent sees attribute by attribute and line by line, short names only; a text that does not decode is shown as it is |
| EnvelopeRoundTrip.StampReads | src/codec/index.ts:355-369 | a compacted stamp ends in the hours, minutes and seconds of its instant, and is preceded by year, month and day exactly when that is not the day of reading |
| EnvelopeRoundTrip.StampTellsInstant | src/codec/index.ts:355-361 | read on one day, equal stamps are of equal instants, so a stale message never passes for a fresh one |
| EnvelopeRoundTrip.PresentedRawIff | src/codec/index.ts:332-354 | a body is shown raw exactly when it quotes no envelope tag, no CDATA syntax and no carriage return |
| EnvelopeStream.VerdictIff | src/codec/index.ts:262-280 | a tag is valid exactly when it closes within 1024 characters and names both parts of its sender, by long names anywhere or short ones at the start or behind whitespace; it waits exactly while at most 1024 characters hold no angle |
| EnvelopeStream.VerdictStable | src/codec/index.ts:267-280 | more input never revises a valid or invalid open-tag verdict |
| EnvelopeStream.OutsideStable | src/codec/index.ts:125-145 | a closing tag found outside CDATA stays found where it was when more input arrives |
| EnvelopeStream.TailIsEnough | src/codec/index.ts:300-303 | the five kept characters suffice for a marker split across chunks |
| EnvelopeStream.ActionStable | src/codec/index.ts:305-324 | at a marker only waiting can be revised by more input |
| EnvelopeStream.ChunkIndependence | src/codec/index.ts:282-287 | extracting a buffer and then its rest with more input is extracting the whole, envelopes and rest |
| EnvelopeStream.AnyChunking | src/codec/index.ts:295-326 | every way of cutting a stream into chunks yields the same envelopes in order and the same rest |
| EnvelopeStream.ExtractedVerbatim | src/codec/index.ts:311-324 | what is extracted are pieces of the buffer, disjoint and in order, each decodable and taken again on its own, and the rest is the end of the buffer |
| EnvelopeStream.ExtractedIffWhole | src/codec/index.ts:299-324 | a text can come out of some buffer exactly when the extractor takes it on its own |
| EnvelopeStream.FoundBehindNoise | src/codec/index.ts:299-324 | behind any noise that leaves no marker waiting, false starts and other envelopes included, a built envelope whose tag fits is taken whole, however the stream goes on |
| EnvelopeStream.FalseStartsYieldNothing | src/codec/index.ts:289-310 | noise yields nothing and leaves nothing waiting exactly when every marker in it is a false start, an invalid tag or a closed text that does not decode; all but its last five characters are then dropped |
| EnvelopeStream.ResyncLosesNothing | src/codec/index.ts:289-326 | any interleaving of fitting envelopes with noise of false starts is extracted as exactly those envelopes in order, followed by whatever the rest of the stream yields |
| EnvelopeStream.ExtractedIffTagFits | src/codec/index.ts:262-273 | there is a stream from which a built envelope is extracted exactly when its open tag is within the bound |
| EnvelopeStream.ContentIsScanned | src/codec/index.ts:307-310 | of an envelope whose tag is too long only the header is dropped, whatever precedes and follows: its attachments and message are scanned as stream text |
| EnvelopeStream.QuotedIsExtracted | src/codec/index.ts:307-310 | an envelope quoted anywhere in the message of such an envelope, sent without attachments and without a CDATA terminator in the message, is extracted as if it had been sent |
| EnvelopeStream.LongTopicIsDropped | src/codec/index.ts:259-262 | an envelope with a topic of 200 quotes, within the topic limit, comes out of no stream |
| EnvelopeMerge.LeftOpenEndsWithNext | src/codec/index.ts:305-324 | a marker with no close tag and no CDATA section behind it ends where the next built envelope ends: both are taken as one text when they form a valid tag and decode together, and the marker is skipped otherwise |
| EnvelopeMerge.OpenMarkerSwallowsIff | src/codec/index.ts:267-280 | behind any settled noise, a marker that never sees its `>` swallows the next envelope exactly when the merged tag is within 1024 characters and names a sender; otherwise the envelope comes out as sent |
| EnvelopeMerge.ProseSwallowsIff | src/codec/index.ts:289-294 | for prose without an equals sign the length alone decides, and the swallowed envelope still decodes to its own fields |
| EnvelopeMerge.TornSwallowsNext | src/codec/index.ts:132-144 | behind any settled noise a built envelope torn inside its message, with no terminator in the part that is left, comes out with the next envelope as one text, decoded under the torn sender with the torn part, the next header and the next texts as its message, attachments or none |
| EnvelopeMerge.NamedStartMisattributes | src/codec/index.ts:228-251 | a start that names another personality swallows the next envelope under the same bound, and its message comes out under that name |
| RefusalEvidence.StringsInOrder | src/daemon/failoverProof.ts:6 | the strings of any content come out in order, part after part, each without its carriage returns |
| ClaudeEvidence.Descendants | src/daemon/failoverProof.ts:149-155 | the repeated-pass loop yields exactly the uuids reachable from the input over parent links, whatever the append order, within one pass a row |
| ClaudeEvidence.RefusalReviewReason | src/daemon/failoverProof.ts:110-173 | the branches and loops decide as the declarative verdict: reachability, work since the last turn end, first offence after the input |
| ClaudeEvidence.ScanAfterInput | src/daemon/failoverProof.ts:163-172 | the loop after the input reports its first offence, and otherwise demands a refusal of the right time |
| ClaudeEvidence.WorkIsIrrevocable | src/daemon/failoverProof.ts:137-173 | once a prefix shows work or an ambiguous row, no continuation by complete rows is judged safe, whatever refusal it is judged against: the same session reports work, another one a mismatch |
| ClaudeEvidence.SafeMeansNoWork | src/daemon/failoverProof.ts:95-102 | a safe verdict rules out work at every earlier moment and any reachable non-error answer |
| ClaudeEvidence.SafeIff | src/daemon/failoverProof.ts:136-172 | the verdict is safe exactly when the rows show it: the first row that puts the task in has a uuid and the failed session, no model answer descends from it, all model work before it belongs to an ended turn, the main chain behind it holds nothing but texts, known attachments and synthetic errors, and the refusal is among them |
| ClaudeEvidence.WalkBack | src/daemon/failoverProof.ts:77-89 | the walk ends on cyclic and dangling links and succeeds exactly when a parent chain leads to the target without passing a stop |
| ClaudeEvidence.FailureContainsTask | src/daemon/failoverProof.ts:63-92 | the claude branch: the first row with the text, the first error of that time, and a chain between them |
| ClaudeEvidence.AnswersTaskIff | src/daemon/failoverProof.ts:60-92 | the accepted pairs on the rows: the first message or queued command whose joined text has every marker, the first API error of that time, and a way back over last rows of their uuids past neither a completed answer nor a text of the user |
| ClaudeEvidence.AnswersDescends | src/daemon/failoverProof.ts:75-82 | a refusal the walk accepts descends from the input in the sense of the closure |
| ClaudeEvidence.RefusalHasOneInput | src/daemon/failoverProof.ts:75-89 | a refusal cannot be walked back to two different text inputs |
| ClaudeEvidence.RefusalReachesEarlierIff | src/daemon/failoverProof.ts:80-89 | a refusal reached from one input is claimed for an earlier one exactly when the walk may pass the first: never past a text input, but past a queued command |
| CodexEvidence.TurnIsQuiet | src/daemon/failoverProof.ts:179-201 | the single pass over completed, modelBefore and pendingCalls accepts exactly the turns without model rows, or whose last completed response is followed only by answers to open calls, none left open |
| CodexEvidence.QuietIff | src/daemon/failoverProof.ts:176-201 | a turn is quiet exactly when all that the model or its tools did in it, but for answers to open calls, is followed by a completed response, and every call opened is answered later |
| CodexEvidence.QuietAnswersEveryCall | src/daemon/failoverProof.ts:187-195 | in an accepted turn every call is answered after it was opened |
| CodexEvidence.RefusalReviewReason | src/daemon/failoverProof.ts:110-217 | the codex branch decides as its declarative verdict |
| CodexEvidence.ScanAfterInput | src/daemon/failoverProof.ts:202-216 | after the input any activity or a completed answer is work; otherwise a refusal of the right time is needed |
| CodexEvidence.WorkIsIrrevocable | src/daemon/failoverProof.ts:137-217 | once a prefix of a rollout shows work, no continuation is judged safe, whatever refusal it is judged against |
| CodexEvidence.SafeMeansNoWork | src/daemon/failoverProof.ts:95-102 | a safe verdict rules out work at every earlier moment and any activity after the input |
| CodexEvidence.SafeIff | src/daemon/failoverProof.ts:139-216 | the verdict is safe exactly when the rows show it: the first session header names the session, the first input lies in the last turn begun before it, that turn is quiet up to it, and behind it come no activity, no last word of a turn, and the refusal |
| CodexEvidence.FailureContainsTask | src/daemon/failoverProof.ts:63-74 | the codex branch accepts exactly when the first turn boundary after the first row with the text is the task end of that time, and no earlier task end has that time |
| CodexEvidence.AnswersTaskIff | src/daemon/failoverProof.ts:60-74 | the accepted pairs on the rows: the first user message whose joined text has every marker, and behind it the end of a turn at that time, no start, end or abort of a turn between and no end of that time before |
| CodexEvidence.SearchFindsTurnEnd | src/daemon/failoverProof.ts:71-74 | the search over the whole rollout, first task end of that time and no boundary between, finds the end of the turn of the input and nothing else |
| CodexEvidence.OneRefusalPerTask | src/daemon/failoverProof.ts:13-15 | an input is tied to the refusal of one time at most |
| FailoverProof.AuthorisedIsUntouched | src/daemon/failoverProof.ts:95-99 | evidence that authorises a replay shows no work at any moment up to the one judged |
| FailoverProof.AuthorisedIff | src/daemon/failoverProof.ts:103-216 | a replay is authorised exactly on complete evidence with usable markers whose rows show a task nobody started on, in the failed session, and its refusal |
| FailoverProof.EvidenceIsTheTasks | src/daemon/failoverProof.ts:103-109 | what authorises a replay is the named, readable file of a failure no older than the task, judged on the needles of the task and that failure |
| FailoverCustody.Custody.SaveFailoverTask | src/lifecycle/failover.ts:107-120 | the writes of a save in order, stopping as an exception would after any number of them |
| FailoverCustody.Custody.ProcessFailovers | src/daemon/failover.ts:29-121 | one pass performs exactly the specified events, none while another pass runs |
| FailoverCustody.Custody.WatchTask | src/daemon/failover.ts:43-67 | a watched record finishes, waits, goes to review or is claimed as specified |
| FailoverCustody.Custody.SettleTask | src/daemon/failover.ts:111-118 | after the send: transferred only when safe and accepted, review on refusal, still dispatching when it threw |
| FailoverCustody.EveryRunIsLawful | src/daemon/failover.ts:27-28 | every run, cut anywhere, with any answers, obeys the law at every moment |
| FailoverCustody.NeverBackwards | src/daemon/failover.ts:37-119 | the durable state never moves backwards, terminal states absorb, no send is forgotten |
| FailoverCustody.AtMostOneSend | src/daemon/failover.ts:68-74 | over any run with crashes anywhere there is at most one send |
| FailoverCustody.SendIsCovered | src/daemon/failover.ts:76-104 | at every send the record on disk says dispatching to that target, is indexed, claimed and quarantined, and the evidence was judged after the old host was seen dead in the same pass |
| FailoverCustody.OriginalMeansUntouched | src/daemon/failover.ts:90-103 | the original message leaves only on evidence, judged after the host was seen dead, that is about the texts of this task and the time and session of the failure in its record, and shows no work at any moment |
| FailoverCustody.TransferredWasDelivered | src/daemon/failover.ts:111-114 | transferred implies the original was sent and accepted |
| FailoverCustody.AlwaysIndexed | src/lifecycle/failover.ts:108-109 | a record that is not terminal is in the active index at every moment |
| FailoverCustody.DispatchingOnlyToReview | src/daemon/failover.ts:68-74 | a pass that finds dispatching sends and kills nothing, and wherever it is cut the record stays or goes to review |
| FailoverCustody.WatchingPass | src/daemon/failover.ts:43-67 | a pass over a watched task takes custody exactly when the failure is the task's own, not older, names session and file, a runtime is free, nobody stopped it and the host is the one it was delivered to; finishes it exactly when the receiver is done and no failure of its own says otherwise; reviews it exactly when only the host differs; and else does nothing |
| FailoverCustody.CustodyPass | src/daemon/failover.ts:75-110 | with custody, and only with it, a pass quarantines the failed session, kills the host exactly when it still runs under the claimed token, and sends exactly when the host is gone and a runtime free: the original exactly when the evidence acquits it |
| FailoverCustody.CustodyEnds | src/daemon/failover.ts:81-118 | where an uncut pass with custody leaves the record: claimed while it must wait, for review when the host changed, transferred exactly when the original was accepted, dispatching exactly when the send threw, and for review otherwise, with reason, target and error |
| FailoverCustody.WatchedWasLeft | src/daemon/failover.ts:43-67 | over all runs, a record that is no longer watched left that state in a pass whose answers called for it: finished means done, custody means the failure called for it |
| FailoverCustody.CustodyWasTaken | src/daemon/failover.ts:63-81 | over all runs, every quarantine, kill and send follows a pass that took the task into custody on answers that called for it |
| FailoverCustody.ClaimHeldIffNoRival | src/lifecycle/failover.ts:91-92 | until it settles, a record holds the claim exactly when the last claim written for its identity is its own |
| FailoverCustody.ClaimCanBeLost | src/lifecycle/failover.ts:114-119 | for every record waiting for its host to exit: a second record of the identity that settles leaves it claimed without a claim |
| FailoverCustody.UninterruptedIsClean | src/lifecycle/failover.ts:116-119 | passes that are never cut leave no settled record indexed or claimed |
| FailoverCustody.SettledHoldsClaimIff | src/lifecycle/failover.ts:107-119 | over any run, cuts included: a settled record holds the claim exactly when it held it as it settled, the settling save has not come to dropping it and no other record has claimed since; it is indexed exactly until that save drops the marker |
| FailoverCustody.HeldMeansCut | src/lifecycle/failover.ts:114-119 | a claim still held at the end of the settling pass means that pass was cut, and the passes that follow write nothing |
| FailoverCustody.CutSettlementKeepsClaim | src/lifecycle/failover.ts:115-119 | a settlement cut after its record and before the claim is dropped leaves the claim, and no later pass changes anything |
| AcceptanceReconciler.Reconciler.ProcessAcceptance | src/daemon/acceptance.ts:45-155 | one pass performs exactly the specified events, none while another pass runs |
| AcceptanceReconciler.Reconciler.Judge | src/daemon/acceptance.ts:90-112 | the judgement on native evidence: delivered, unresolved or unchanged, fresh slots on a change, a write when status or recorded death changed |
| AcceptanceReconciler.ToldIff | src/daemon/acceptance.ts:81-112 | without cut, a record is delivered exactly on a receipt, unresolved exactly when there is none and it was so or sending, the alert time is over or the dead have drained, and failed exactly when its writer left it prepared; a change opens fresh slots |
| AcceptanceReconciler.PassDoes | src/daemon/acceptance.ts:114-153 | an uncut pass over an open case tells the caller, tells the operator, raises the board and removes the record exactly when the record it tells of calls for each |
| AcceptanceReconciler.PassLeaves | src/daemon/acceptance.ts:77-153 | where an uncut pass leaves the record: slots sent exactly when accepted, free exactly when refused, the first alert dated, deaths remembered while it waits, and removed exactly when it expires |
| AcceptanceReconciler.NothingHangs | src/daemon/acceptance.ts:102-141 | after an uncut pass past the alert time no open record still says sending or pending, and a caller owed word of an unresolved or failed delivery has been sent a notice or holds a claimed slot |
| AcceptanceReconciler.PassReleases | src/daemon/acceptance.ts:56-76 | after a closure an uncut pass tells the caller exactly when the checkpoint is free, leaves the checkpoint as the answer says and touches the record no more |
| AcceptanceReconciler.Reconciler.TellCaller | src/daemon/acceptance.ts:122-141 | the caller slot is claimed before the send and settled by its outcome |
| AcceptanceReconciler.Reconciler.ReleaseCaller | src/daemon/acceptance.ts:56-76 | after a closure the caller is released under its own checkpoint |
| AcceptanceReconciler.PromptRunIsLawful | src/daemon/acceptance.ts:51-155 | every run with a prompt writer obeys the law at every moment, wherever passes are cut and whichever copies the writer has overtaken |
| AcceptanceReconciler.OvertakenIsLawful | src/daemon/acceptance.ts:53-111 | whatever a pass does with a copy the writer has overtaken since it was listed obeys the law: it writes only when the writer is gone and nobody has been told anything |
| AcceptanceReconciler.StatusIsMonotone | src/daemon/acceptance.ts:82-110 | while no pass acts on an overtaken copy, and until the delivery is filed anew, status only moves prepared, sending, pending, unresolved, final; finals are kept; a removed record stays removed |
| AcceptanceReconciler.FailedMeansNeverEntered | src/daemon/acceptance.ts:84-89 | while no pass acts on an overtaken copy, failed is written only for a dead writer that never reached the send checkpoint |
| AcceptanceReconciler.NoticesAreBounded | src/daemon/acceptance.ts:122-146 | at most two accepted-or-uncertain notices to the caller and one to the operator since the delivery was last filed, and one on closure, over any run with a prompt writer, passes over overtaken copies included |
| AcceptanceReconciler.OncePerStatus | src/daemon/acceptance.ts:107-109 | over any run with a prompt writer, between two accepted-or-uncertain notices of one slot the status changed or the delivery was filed anew |
| AcceptanceReconciler.SendIsClaimed | src/daemon/acceptance.ts:125-137 | over any run with a prompt writer, every notice leaves with its slot durably claimed and the case not closed |
| AcceptanceReconciler.ClosureSilences | src/daemon/acceptance.ts:122-124 | once the operator has closed the case, even while its caller is being told of it, no later notice goes to the caller or to the operator |
| AcceptanceReconciler.EarlyUnresolvedWasDrained | src/daemon/acceptance.ts:97-105 | while no pass acts on an overtaken copy, a pending record unresolved before the alert time was seen dead by every pass for at least the drain time, unless a live sighting was lost to a crash |
| AcceptanceReconciler.LostIffCut | src/daemon/acceptance.ts:97-111 | over any run with a prompt writer, a sighting is lost at a moment exactly when some pass was cut between seeing a live process and writing it, and no later write has cleared the recorded death |
| AcceptanceReconciler.RemovedOnlyWhenTold | src/daemon/acceptance.ts:151-153 | over any run with a prompt writer, nothing is deleted before a week in a final status, nor, unless the writer itself settled it, before its owed notices were accepted |
| AcceptanceReconciler.FailedIsHonestIffRereadAgrees | src/daemon/acceptance.ts:53-87 | over any run, a failure declared from a listed copy contradicts the writer exactly when the record on disk no longer says prepared |
| AcceptanceReconciler.StaleListingFailsAfterPaste | src/daemon/acceptance.ts:84-87 | a run in which a stale copy yields failed after the send checkpoint |
| AcceptanceReconciler.LateWriterRegresses | src/launch/codexDelivery.ts:175-178 | whatever the record, a writer finishing after the alert time takes unresolved back to pending and forgets a sent notice |
| AcceptanceReconciler.LostSightingExpiresEarly | src/daemon/acceptance.ts:98-111 | a crash between seeing a live process and writing it makes the next death unresolved at once |
| AcceptanceReconciler.FailedCoreRemovedIff | src/daemon/acceptance.ts:146-153 | an open failed notice of the core with no operator slot taken is told to nobody, and a pass removes it exactly when no operator is configured and the week is over |
| AcceptanceReconciler.CoreSlotStaysUnset | src/daemon/acceptance.ts:142-146 | in a run with a prompt writer a record of the core never takes its operator slot |
| ReloadStore.Store.ReadReload | src/capability/reloadStore.ts:40-45 | a marked request reads as applied whatever its payload says |
| ReloadStore.Store.SaveReload | src/capability/reloadStore.ts:25-27 | saving a marked request does not make it owed |
| ReloadStore.Store.RequestReload | src/capability/reloadStore.ts:28-33 | a new request is owed and nothing else changes |
| ReloadStore.Store.RequestRetire | src/capability/reloadStore.ts:34-39 | a removal request is owed like any other and asks for retirement |
| ReloadStore.Store.CompleteReloads | src/capability/reloadStore.ts:64-67 | completing a snapshot ends exactly its requests and acknowledges no other |
| ReloadStore.Store.GcReloads | src/capability/reloadStore.ts:72-89 | collecting removes exactly the requests applied a TTL ago and nothing owed; a gone endpoint loses its queue |
| ReloadStore.Store.Update | src/capability/reload.ts:27-38 | the status loop rewrites exactly the owed requests of its snapshot and never changes what is owed |
| ReloadRaces.OwedIffNotApplied | src/capability/reloadStore.ts:40-59 | at every moment of a run whose updates save within a TTL of their snapshot a request is owed exactly from registration until applied, whatever reads span a collection |
| ReloadRaces.CompletionNeverRewinds | src/capability/reload.ts:30-36 | after it was applied no moment of such a run shows a request owed, crashed collectors included |
| ReloadRaces.UnappliedIsKept | src/capability/reloadStore.ts:69-86 | in such a run a request never applied is never collected |
| ReloadRaces.FooledIffOvertaken | src/capability/reloadStore.ts:41-44 | a reader that finds no marker is wrong exactly when it was collected between its two looks |
| ReloadRaces.SaveRevivesIffCollected | src/capability/reload.ts:29-36 | the save of an update brings an applied request back exactly when the run has collected it and not applied it since, and that takes a snapshot a TTL old |
| ReloadRaces.LateUpdateRevives | src/capability/reload.ts:24-36 | every owed request can be brought back by an update whose save comes after it was applied and collected |
| SurfaceWatch.Watch.WatchSurfaces | src/capability/reload.ts:102-123 | after a sweep each watched endpoint has a baseline that matches or a request; requests and baselines are added only where due |
| SurfaceWatch.CoveredWhateverIsWrittenIff | src/capability/reload.ts:112-117 | the next sweep covers a live process with a baseline, whatever is written before it, exactly when the baseline is what the process has read or a reload is owed |
| SurfaceWatch.SweepMissesNothing | src/lifecycle/index.ts:1346-1349 | wherever writes land and launches crash, unless earlier surfaces are written back every sweep leaves the live process current or owed a reload |
| SurfaceWatch.RecordedLaunchesSweepExactly | src/capability/surfaces.ts:1-5 | when launches read what they fingerprinted and are recorded, earlier surfaces may come back too, and a sweep outside a launch asks for a reload exactly when the live process runs something else and none is owed |
| SurfaceWatch.LaunchConverges | src/lifecycle/index.ts:1346-1403 | once writing stops one launch makes process, baseline and disk agree, and later sweeps ask for nothing |
| SurfaceWatch.NoRequestIsLost | src/lifecycle/index.ts:1340-1397 | over any run every request is owed or applied, and applied only by a launch that had read every write before it |
| SurfaceWatch.FromTheStart | src/capability/reload.ts:99-123 | the sweep and request theorems hold of every run from an endpoint nobody has hosted yet |
| SurfaceWatch.WriteDuringLaunchIsMissed | src/lifecycle/index.ts:1346-1349 | a write after the fingerprint, read by the process and taken back, is missed |
| SurfaceWatch.UnrecordedLaunchIsMissed | src/lifecycle/index.ts:1397-1403 | a crash after completion and before the baseline, followed by the old surfaces, is missed |
| SurfaceWatch.AdoptionHidesDifference | src/capability/reload.ts:99-113 | a baseline adopted while the process runs something older hides the difference for good |
| FleetTailer.FleetEventTailer.Tick | src/daemon/fleet.ts:451-484 | each file moves to its next state and the complete lines are delivered in file order |
| FleetTailer.FleetEventTailer.Subscribe | src/daemon/fleet.ts:431-440 | the first subscriber primes every offset to the end of its file, later ones change no offset |
| FleetTailer.SplitAppend | src/daemon/fleet.ts:469-471 | appended text only affects the unfinished last line |
| FleetTailer.ExactlyOnce | src/daemon/fleet.ts:466-482 | however a file grows and whichever reads fail, the lines delivered are exactly the complete lines after the primed offset, once and in order, with the unfinished suffix kept |
| FleetTailer.RotationRestarts | src/daemon/fleet.ts:454-464 | a shorter or missing file restarts the tail: from then on the lines are those of the new file |
| FleetTailer.UnseenRotationLosesTheHead | src/daemon/fleet.ts:460-466 | over any number of polls, two files that never shrink below the held offset and differ only before it deliver the same lines |
| FleetTailer.RotationSeenIff | src/daemon/fleet.ts:460-466 | every next file of a given length is read from its beginning exactly when that length is below the offset held, or nothing had been read |
| NoticeBoard.Notices.Raise | src/daemon/notices.ts:148-208 | a call folds into the live notice of its key or raises a new one, as specified |
| NoticeBoard.Notices.Prune | src/daemon/notices.ts:233-235 | exactly the expired notices go |
| NoticeBoard.Notices.List | src/daemon/notices.ts:212-216 | exactly the live notices of an audience, oldest first |
| NoticeBoard.SoundRaised | src/daemon/notices.ts:166-182 | every notice keeps an id of its own and sits under its own key |
| NoticeBoard.KeyIdentifies | src/daemon/notices.ts:120-125 | two conditions whose four names hold no bar share a key only when they are the same condition, whatever the model holds |
| NoticeBoard.KeyIdentifiesIff | src/daemon/notices.ts:120-125 | the key of a condition belongs to it alone exactly when none of its five parts holds a bar |
| NoticeBoard.BarConfuses | src/daemon/notices.ts:123-125 | every condition with a bar in some part, the model included, shares its key with a different condition |
| NoticeBoard.RaisedIffExpired | src/daemon/notices.ts:149-163 | while time moves on a call raises exactly when no notice was raised for its key within the last TTL |
| NoticeBoard.RaisesAreApart | src/daemon/notices.ts:233-235 | two raises of one key are at least a TTL apart |
| NoticeBoard.OneEventCountsOnce | src/daemon/notices.ts:154-162 | re-reading one event never raises its count |
| NoticeBoard.CountsOccurrences | src/daemon/notices.ts:148-192 | after any calls a live notice is the one last raised under its key and counts that raise and every later call without an event or with one newer than all told of since; it keeps the newest event and the time it last took one in |
| NoticeBoard.IncreasingEventsCount | src/daemon/notices.ts:155-163 | calls with increasing event times within one TTL are all counted |
| GoalWatch.SelectStalledGoals | src/daemon/goalwatch.ts:126-168 | the loop selects exactly the goals stalled after the floor on a peer's current thread, in order |
| GoalWatch.Watch.Tick | src/daemon/goalwatch.ts:364-393 | a sweep raises what it selected and moves the boundary to its start, also when the read failed |
| GoalWatch.WatchTellsIff | src/daemon/goalwatch.ts:126-165 | over any sweeps, the calls of the watch are exactly the owner notices of the rows read that stalled since fifteen seconds before the preceding sweep began, on the current thread of a known peer |
| GoalWatch.SelectedIffFirstReaderReaches | src/daemon/goalwatch.ts:336-338 | a stall is ever selected exactly when the sweep before its first successful reader started less than the overlap after it, failed sweeps included |
| GoalWatch.NeverMissed | src/daemon/goalwatch.ts:54-56 | a stall readable within the overlap of its stamp is selected, unless the sweep just before its first successful reader failed |
| GoalWatch.FailedReadLosesStall | src/daemon/goalwatch.ts:226-249 | a stall that becomes readable only for a sweep that fails is raised at all only if its stamp lies less than an overlap before that sweep began |
| GoalWatch.StallLostToOneFailure | src/daemon/goalwatch.ts:364-390 | a stall readable at once is never selected when one sweep fails and the next reads it |
| GoalWatch.Watch.Run | src/daemon/goalwatch.ts:411-441 | over all sweeps from a blank board the board is the fold of every call the sweeps make, each reading from the start of the one before |
| GoalWatch.WatchCallsOneRow | src/daemon/goalwatch.ts:333-357 | when one row alone has a dedup key, the calls of the watch under it are about that stall, one for every sweep that selects it |
| GoalWatch.OneNoticeIffWithinTtl | src/daemon/notices.ts:148-163 | a stall some sweep selects raises a notice with one occurrence, and no second one exactly when all its raises fall within one TTL |
| GoalWatch.WatchRaisesOnceIff | src/daemon/goalwatch.ts:375-387 | the same of the calls the watch itself makes over any sweeps |
| GoalWatch.WatchRaisesOnce | src/daemon/goalwatch.ts:407-441 | with pace plus overlap within the TTL the watch raises exactly one notice for a selected stall |
| ApprovalSettings.SettingsFile.InstallClaudeApproval | src/approval/install.ts:75-94 | the edit in place is the specified installation; a refused file is left alone |
| ApprovalSettings.SettingsFile.RemoveClaudeApproval | src/approval/install.ts:98-117 | the edit in place is the specified removal |
| ApprovalSettings.SettingsFile.InstallCodexApproval | src/approval/install.ts:127-142 | the codex edit is the specified installation |
| ApprovalSettings.SettingsFile.RemoveCodexApproval | src/approval/install.ts:146-169 | the codex edit is the specified removal; an empty file goes |
| ApprovalSettings.RemoveUndoesInstallIff | src/approval/install.ts:96-113 | removing undoes installing, key order included, exactly on clean settings |
| ApprovalSettings.ClaudeRoundTripIff | src/approval/install.ts:75-117 | for the two claude places together: identity exactly when both are clean |
| ApprovalSettings.ClaudeFileRoundTripIff | src/approval/install.ts:53-61 | a claude file is restored exactly when refused, or present and clean; an absent one stays behind as an empty object |
| ApprovalSettings.CodexFileRoundTripIff | src/approval/install.ts:153-163 | a codex file is restored exactly when refused, absent, or non-empty and clean |
| ApprovalSettings.ToggleRestoresIff | src/approval/install.ts:1-8 | off-and-on restores installed settings exactly when our item ends its list, and what it alone fills is last |
| ApprovalSettings.ClaudeToggleRestoresSectionIff | src/approval/install.ts:1-8 | the same for each of the two sections of a claude file |
| ApprovalSettings.ClaudeToggleRestoresIff | src/approval/install.ts:6-8 | off-and-on restores a whole installed claude file, order of keys included, exactly when our item ends both lists and the sections that vanish and return are the last of the file, hooks before permissions |
| ApprovalSettings.CleanToggleIsStable | src/approval/install.ts:6-8 | on clean settings install, remove, install is install |
| ApprovalSettings.EditsAreIdempotent | src/approval/install.ts:82-88 | installing twice is installing, removing twice is removing, on any settings |
| ApprovalSettings.ClaudeIdempotent | src/approval/install.ts:75-117 | the same for a claude file with its two places |
| ApprovalSettings.InstallKeepsForeign | src/approval/install.ts:80-90 | installing keeps every foreign key, item and order; a new section comes last |
| ApprovalSettings.RemoveKeepsForeign | src/approval/install.ts:103-114 | removing keeps every foreign key, item and order |
| ApprovalSettings.GateFollowsToggle | src/approval/install.ts:75-169 | whatever else the file holds, after installing it runs the approval hook and allows the peer's own tool, and after removing it does neither |
| ApprovalSettings.FreshFiles | src/approval/install.ts:33-58 | what a file that was absent holds after installing, word by word |

## Left out

- Text: characters are Unicode scalar values; iapeer counts UTF-16 units, so a topic cut inside a surrogate pair is not modelled, nor are object-prototype names in the intelligence lookup.
- EnvelopeStream.ResyncLosesNothing: noise that ends in a marker still waiting is excluded, because the next envelope can be merged with it; `EnvelopeMerge` says when.
- EnvelopeMerge.OpenMarkerSwallowsIff: the prose holds one marker, no `>` and no CDATA opener; a start with its `>` but no close is covered by `LeftOpenEndsWithNext`, whose condition is that the two decode together, and one torn inside its message by `TornSwallowsNext`.
- EnvelopeMerge.LeftOpenEndsWithNext: a marker with a CDATA opener behind it is left to `TornSwallowsNext`, which is about built envelopes torn inside their message; one torn inside its attachments is not modelled.
- Dates: parsing a time stamp is a parameter of the agent-facing form; only its compaction is modelled.
- JSON parsing, UTF-8 decoding, SHA-256 and SQLite: parsed rows, contents, fingerprints and tables are inputs. Uuids and parent links are strings or missing, and `completed_at` is a whole number of seconds.
- Object keys that look like array indices, which JavaScript moves to the front, do not occur in the settings that are modelled.
- OpenCode evidence: later rows can change which input is found; its verdict is a parameter of `FailoverProof`.
- `failureForTask`, oversized tails and session slices: which failure belongs to a record is an answer of the environment.
- FailoverCustody: a run is about one record; others act on it only through the shared claim. Listing order, the collection of settled records after a week and the purge of an identity are not modelled; quarantine, marking fresh, park clearing and in-flight settlement are events without further effect. The message texts, topics and attachments of a send are reduced to original or review request.
- AcceptanceReconciler: writes of other processes in the middle of one awaited send are not modelled; they can come between listing and acting, and between passes. The exception is the operator's closure during the send to the caller; one that lands between the re-read of the case and the send it guards does not occur. Payload texts, attachments of long notices and the delivery log are left out, and a reused process id may only make a dead process look alive. The filing of an in-flight entry whose record is gone (src/daemon/main.ts:378-389) is the event `Imports`; what puts such an entry there is not modelled.
- AcceptanceReconciler.PromptRunIsLawful: assumes one clock that does not run backwards and a writer whose writes come within the alert time of its first (`LateWriterRegresses` shows what happens otherwise). Only `StatusIsMonotone`, `FailedMeansNeverEntered` and `EarlyUnresolvedWasDrained` also assume that no pass acts on an overtaken copy (`StaleListingFailsAfterPaste`).
- AcceptanceReconciler.EarlyUnresolvedWasDrained: the drain is measured from the start of the pass that first saw the death, as the pass does, not from the look itself.
- `applyReloads` beyond its status loop: when a reload or a retirement is attempted, and by which launch.
- ReloadRaces.CompletionNeverRewinds: assumes updates that save within the TTL of their snapshot; `LateUpdateRevives` shows the assumption is needed.
- ReloadRaces: the removal of an empty request directory is taken as atomic, and an exception from a payload collected between two reads of one listing is a crash of the reader.
- SurfaceWatch.SweepMissesNothing: assumes that surfaces are not put back to what they once were, and that a baseline is adopted only from a process that runs what is on disk; the three ways a difference is missed break one or the other.
- SurfaceWatch: a surface is one abstract value; fingerprints are taken as injective.
- FleetTailer: ticks before the first subscription, whose offset is -1, do not occur; one-byte characters and reads of full length; a rotation between the size check and the read, event parsing and subscriber exceptions are left out. Lines are delivered to the set of subscribers as a whole.
- NoticeBoard: summaries, the durable log and `get` by id.
- GoalWatch: the objective's clipping and the notice text are parameters; a sweep any of whose reads fails is a sweep without goals, and a failing raise does not stop the others.
- ApprovalSettings: the codex trust file, the peer profile field and the file permissions of `setApprovalMode`.
- Operator command line, HTTP and SSE handling, the launch itself, name and socket parsing, approvals broker, limit resume: not part of this model.

# Verified model of aivoicemail

aivoicemail answers calls to configured numbers, records a message, transcribes and summarises it, and mails the result
to the mailbox of the called line. This project models the parts of it whose correctness is not visible in any single
function, and proves what they promise.

- **Delivery protocol.** `vm-finalize` publishes an item in `ready/`, the audio first and the metadata last; one worker
  lists, processes and acknowledges items. `Machine.dfy` gives the per-item state machine of
  `aivoicemail/processor.py` as functions, `Processor.dfy` the class with its five collections updated in place, proved
  against them. `Protocol.dfy` is the step system of any number of producers, the worker and an environment that picks
  every answer of every call and every crash, one call at a time. `Watch.dfy` states the promises as six small automata
  over the events of one item, `Keeps.dfy` proves that one call of `process` keeps them, `Delivery.dfy` states the
  resulting theorems on plain event counts, and `Calls.dfy` those that need to know that every run is made of whole calls
  of `process`. `Lifting.dfy` takes a promise that one call of `process` keeps, as an automaton over its events, to every
  run; on it stand `Outcomes.dfy` (which email an item gets, and why), `Notices.dfy` (the operator's alert after a
  give-up), `Acks.dfy` (exactly how many alerts failing acks raise) and `Ledger.dfy` (nothing goes unrecorded).
  `Progress.dfy` is about how soon an item is gone. `Exact.dfy` gives runs that meet the bounds and runs that show where a promise stops, and
  `Addressing.dfy` shows whose mailbox an item reaches and what the email carries, byte for byte. `Weave.dfy`, `Cycle.dfy`
  and `Worker.dfy` prove that the poll loop, with producers at work at any moment, is a run of that system, so the
  theorems hold of the loop. `Spool.dfy` has the producer script and the file operations of the worker, and shows that
  each is a step of the protocol or an answer it allows.
- **Dialplan compiler.** `Config.dfy` reads the `[[line]]` tables. `Dialplan.dfy` is a small Asterisk: statements, how
  they load into extensions, and an interpreter. `Generate.dfy` is the emitter; `CallFlow.dfy` proves that the loaded
  dialplan does with every call what the configuration says, `HangUps.dfy` what happens when the caller hangs up at any
  step, and `Handover.dfy` follows a call through the hangup handler and `vm-finalize` into `ready/`.
- **Prompts.** `Prompts.dfy` builds the prompts and runs the transparency check; `Agreement.dfy` connects both to the
  dialplan: calls play exactly the listed prompts, and every recording is announced by a notice that says what it must.
- **pcap writer.** `Pcap.dfy` has the A-law encoder and the RTP file writer, and a decoder and a packet reader written
  from section 3 of ITU-T G.711, section 3.1 of RFC 791, RFC 768 and section 5.1 of RFC 3550.
- **Smaller loops.** `Retry.dfy` (provider chain), `Alerts.dfy` (alert spacing), `ListWire.dfy` (the listing as text and
  back), `SummaryPrompt.dfy` (the transcript delimiter). `Text.dfy` holds words, lines and numbers as text, `Common.dfy`
  result types and powers of two.

An exception is a value: the verdict `Raised` in the processor, a `Failure` elsewhere. What a foreign call answers is an
argument: an `Oracle` fixes, for one `process` call, what the spool, the speech check, the two provider chains, rendering
and the mail server do. Everything proved holds for all of them.

## What the proofs found

- The comment above `_alert_ack_failing` (aivoicemail/processor.py:214-217) says the operator is informed once. With
  `max_failures = 1` he is informed twice: the delivering call counts the failed ack and alerts, line 63 then clears the
  counter, and the next failed ack alerts again. `Exact.AckAlertOnceIff` proves that `max_failures >= 2` is exactly when
  it is once.
- How often it is can be told exactly (`Acks.AckAlertsAreExact`): from the max_failures-th failed ack on, but after a
  first attempt one failed ack later, because line 63 forgets that attempt's own failed ack.
- The docstring (line 6) promises a give-up after max_failures consecutive errors. It comes after exactly max_failures
  plus the spent failures, hence after max_failures if and only if none are spent (`Delivery.GiveUpOnlyAtLimit`). Spent
  are the failures before a `SendError` in a call that fetched the item: only that call clears the counter (line 63). A
  `SendError` of a cached email clears nothing (lines 122-123), nor does a spool error. At most max_failures - 1 are ever
  spent (`Delivery.EscalationBound`), so a waiting item has at most 2 * (max_failures - 1) failures, and can have so many
  (`Exact.EscalationBoundIsMet`).
- The same line promises an alert with the fallback. The acceptance of an email that owes an alert is followed by exactly
  one, before the ack (`Notices.GiveUpIsAlerted`). But that email is the fallback if and only if the latest give-up sent
  one (`Notices.AcceptedFallback`): when a later give-up raises before it caches its own, a first attempt may deliver an
  ordinary email, and the alert calls it a fallback (`Exact.OrdinaryEmailIsAlerted`).
- A fallback does not always keep the attachments of the email it replaces. It does so if and only if the call that gives
  up did not itself fetch a recording for an email that goes without one, that is, a message or a missed call
  (`Calls.FallbackKeepsAttachmentsIff`). In particular an email that an earlier call cached keeps its attachments, and a
  message that the same call was to send without its recording goes out with it
  (`Exact.SameCallGiveUpChangesAttachments`).
- A fetch returns the recording if and only if the metadata has one and the worker has not removed it before
  (`Delivery.FetchesWhatWasPublished`). After a crash between the two removals of an ack it has: the restarted worker
  finds the metadata without its audio and mails a missed call (`Exact.CrashTurnsMessageIntoMissedCall`); an email with
  the message had been accepted before.
- `config._lines` accepts a line with an empty id or number, and exactly these configurations are refused by the
  checks of `extensions_lines` (`Generate.RefusedOnlyWhenEmpty`).
- `fill` replaces one key after the other, so a placeholder inside the company name would be filled with the privacy URL.
  `Prompts.FillSays` says what a text becomes when the name has no opening brace.
- A file with a negative modification time makes the whole listing unreadable over SSH while the local backend lists it
  (`ListWire.BackendsAgree`).

## Assumptions

- `send` is atomic: the mail server accepts the email and gives an id, or it does not accept it. The program cannot tell
  apart an error raised on closing the connection after acceptance.
- Logging never raises. The call log may raise; the program swallows that, so only the call itself is visible.
- Nobody edits `ready/` by hand, and the uuids of `vm-finalize` are fresh.
- What the work directory holds of an item is what the present fetch wrote: `process` removes it (processor.py:79), and
  one that a killed worker left behind is taken to be gone when the next one starts.
- A spool command given up on over SSH has had all its effects before the worker goes on.
- The configuration is the one `config.load` returned: at least one line, `max_failures >= 1`.

## Model

| member | source | states |
|---|---|---|
| Delivery.AtMostOnce | aivoicemail/processor.py:53-124 | over every run without a restart each item has at most one accepted email, and exactly one before its first ack call and before either file is removed |
| Delivery.NoLoss | aivoicemail/processor.py:176-199 | with crashes anywhere, an item is in ready/ exactly from its publication to the removal of its JSON, which comes only after an email of the removing process was accepted; accepted emails are at most 1 plus the crashes that found it delivered and in ready/ |
| Delivery.FetchesWhatWasPublished | aivoicemail/spool/local.py:45-68 | a fetch returns the published metadata, and a recording if and only if the metadata has one and the worker has not removed it; where it misses one an email had been accepted; no WAV of a published item is left without its JSON |
| Delivery.CallLogShape | aivoicemail/processor.py:157-164 | per process and item the call log reads: optional send-failed, one outcome, optional acked-after-retry, the last two with one message id; between calls the outcome is there if and only if this process delivered the item |
| Delivery.ResendsTheCachedEmail | aivoicemail/processor.py:116-119 | between a send and a give-up or crash nothing is fetched, transcribed or summarised again and every send is the same email |
| Delivery.FallbackKeepsAttachments | aivoicemail/processor.py:242-275 | giving up on an email cached by an earlier call sends a fallback with the same attachments |
| Calls.FallbackKeepsAttachmentsIff | aivoicemail/processor.py:242-275 | over every run a fallback has the attachments of the email it replaces if and only if the call that gave up did not fetch a recording for an email that is a message or a missed call |
| Calls.EveryCallIsProcess | aivoicemail/processor.py:53-79 | in every run, what was done for an item between two moments it is taken up is the beginning of the calls of one call of process |
| Calls.ProcessShape | aivoicemail/processor.py:53-79 | one call of process sends at most one email, gives up at most once and then sends at most the fallback; the two emails have equal attachments exactly under the condition above |
| Delivery.EscalationBound | aivoicemail/processor.py:60-77 | every counted failure is numbered by the failures since the last give-up or crash less the spent ones, those before a refusal in a call that fetched; what is remembered of a waiting undelivered item is exactly that difference, at most max_failures - 1; at most max_failures - 1 are ever spent |
| Delivery.LimitForcesGiveUp | aivoicemail/processor.py:74-77 | the failure that reaches the limit is followed by a give-up unless the worker dies |
| Delivery.GiveUpOnlyAtLimit | aivoicemail/processor.py:113-119 | every give-up follows the failure numbered max_failures with nothing of the item in between, after exactly max_failures plus the spent failures; exactly max_failures if and only if none were spent |
| Delivery.RemembersDeliveries | aivoicemail/processor.py:44-51 | never both a delivery and a cached email of one item; a listed item is remembered as delivered exactly when this process delivered it |
| Delivery.AckAlertAtMostOnce | aivoicemail/processor.py:86-95 | with a limit of at least 2 the ack-failing alert is attempted at most once per item and process |
| Delivery.OnlyAckedAfterDelivery | aivoicemail/processor.py:189-199 | after delivery, until a crash, an item is only acked: no send, fetch, count or give-up |
| Outcomes.OutcomeIsRight | aivoicemail/processor.py:126-155 | in every run an email that no give-up wrote has the outcome its own evidence calls for: missed if and only if no recording was fetched or less speech than the least was measured, a message if and only if both provider chains answered, each fallback if and only if its step failed; the providers named are those that answered |
| Outcomes.FallbackIsRight | aivoicemail/processor.py:242-270 | in every run the fallback of a give-up names the item's line if its metadata was read, and before any email was offered it carries exactly the recording that was fetched |
| Outcomes.ProvidersAreAskedRightly | aivoicemail/processor.py:140-148 | in every run transcription is asked only for a recording with enough speech, with the caller's language and the line's menu, and a summary only of what the transcription answered, in the mailbox's language |
| Outcomes.LogIsTrue | aivoicemail/processor.py:157-164 | in every run a call log entry is about an email that was offered or accepted before it, with that email's metadata, outcome, providers and message id |
| Outcomes.ComposesUnless | aivoicemail/processor.py:126-155 | exactly when a first attempt gets as far as an email |
| Outcomes.FirstAttemptDelivers | aivoicemail/processor.py:176-199 | a first attempt that gets so far, with mail server and ack working, delivers an ordinary email and removes the item |
| Ledger.NothingIsMissing | aivoicemail/processor.py:176-240 | in every run, between calls: a refused email has its one send-failed entry, a delivery has an ack, every ack is counted as failed except a last one that removed the item, and such a one of a later call has its acked-after-retry entry |
| Exact.AckAlertOnceIff | aivoicemail/processor.py:86-95 | the alert is raised at most once in every run if and only if max_failures is at least 2 |
| Acks.AckAlertsAreExact | aivoicemail/processor.py:86-95 | in every run, between calls, exactly how many alerts were attempted: one from the max_failures-th failed ack since the delivery on, from the next one on after a first attempt, and with a limit of 1 two after a first attempt |
| Exact.AlertsTwice | aivoicemail/processor.py:60-64 | the run with max_failures 1 that alerts twice |
| Exact.DuplicateBoundIsMet | aivoicemail/processor.py:189-199 | for every k a run with k unacked crashes and 1 + k accepted emails |
| Exact.EscalationBoundIsMet | aivoicemail/processor.py:105-124 | a run that counts 2 * (max_failures - 1) failures without giving up, half of them spent |
| Exact.SameCallGiveUpChangesAttachments | aivoicemail/processor.py:68-77 | a give-up in the call that cached the email sends other attachments |
| Exact.CrashTurnsMessageIntoMissedCall | aivoicemail/spool/local.py:61-68 | after a crash between the two removals the item is mailed as a missed call |
| Exact.OrdinaryEmailIsAlerted | aivoicemail/processor.py:264-275 | a run in which an ordinary email is accepted and alerted as a fallback, for every limit |
| Notices.GiveUpIsAlerted | aivoicemail/processor.py:196-212 | if there is an alerter, the acceptance of an email that owes an alert is followed by exactly one attempt to give it before the ack; no other is made |
| Notices.AcceptedFallback | aivoicemail/processor.py:242-269 | an accepted email is a give-up's fallback if and only if the latest give-up sent it and it still waited; then an alert is owed |
| Progress.GoneAfterEnoughTakes | aivoicemail/processor.py:53-79 | from every state of every run: once spool, mail server, ack and rendering of the fallback work, an item is gone after at most max_failures less its counted failures calls of process, and after one if an email of it is cached or was accepted |
| Keeps.ProcessRemoves | aivoicemail/processor.py:229-240 | an item is returned as acked only when its JSON was removed |
| Addressing.EmailsAreRight | aivoicemail/processor.py:126-155 | in every run each accepted email goes to the mailbox of the item's line; a message carries no recording, a missed call nothing, every other outcome of the pipeline exactly the published recording, byte for byte; the fallback after repeated failures carries nothing or that recording (a beginning of it if the metadata could not be read) and alone may go to the first line |
| Addressing.FetchesAreRight | aivoicemail/spool/local.py:45-59 | in every run a fetch returns the published metadata and, if it returns a recording, the published bytes |
| Addressing.OneRecording | asterisk/bin/vm-finalize:7-36 | an item is published once: all its emails speak of the same metadata and the same recording |
| Addressing.AcceptedIsLoaded | aivoicemail/config.py:364-408 | an accepted configuration is one that the address theorems are about |
| Addressing.ProcessRight | aivoicemail/processor.py:242-270 | one call of process sends only such emails and keeps only such an email |
| Keeps.ProcessKeeps | aivoicemail/processor.py:53-79 | one call of process never raises and keeps every promise of the automata, whatever the outside world answers |
| Keeps.ProcessShape | aivoicemail/processor.py:122-124 | an item returned as acked is in none of the five collections |
| Keeps.AfterAcceptKeeps | aivoicemail/processor.py:189-199 | from acceptance on the slot says delivered, whatever ack does |
| Keeps.GiveUpKeeps | aivoicemail/processor.py:242-275 | a give-up never raises and restarts the count |
| Keeps.AckKeeps | aivoicemail/processor.py:229-240 | an ack that fails after any number of removals leaves the item to be acked again only |
| Protocol.RunKeeps | aivoicemail/worker.py:52-72 | the invariant of every reachable state, for every item at once |
| Protocol.MoveKeeps | aivoicemail/worker.py:52-72 | every producer step, worker step, fault and crash keeps it |
| Cycle.CycleIsARun | aivoicemail/worker.py:52-72 | a poll cycle, with producers moving anywhere between its steps, is a run of the protocol that ends with the slots the cycle computes; every listed item that is still in ready/ waits |
| Weaving.WovenIsARun | aivoicemail/worker.py:60-72 | after a scan, a run of the worker stays a run, with the same slots, when moves of producers are woven into it anywhere |
| Cycle.BoundedByWaiting | aivoicemail/worker.py:60-72 | after a cycle whose list succeeded every remembered id is among the waiting items |
| Working.Worker.Turn | aivoicemail/worker.py:52-77 | one turn of the loop takes part in exactly that run, whatever producers do meanwhile, forgets all but waiting items, keeps every listed item that is still in ready/ waiting, looks for orphans every ten minutes, and has reported within the hour whatever there is reason to report: an item waiting too long, a list that has failed too long, stale orphans |
| Working.Worker.RaiseAlerts | aivoicemail/worker.py:73 | an alert that there is reason for was sent less than an hour ago, if the mailer takes it; the others keep their times; only one that there is reason for can end the loop |
| Working.Worker.Run | aivoicemail/worker.py:48-77 | any number of turns, with producers moving at any time: no item is delivered twice, none removed before its one delivery |
| Working.Worker.Attend | aivoicemail/worker.py:60-72 | evict, orphan scan at most every ten minutes, process in order |
| Working.Worker.ServeAll | aivoicemail/worker.py:65-72 | processing in order; what is not acked waits |
| Working.Worker.constructor | aivoicemail/worker.py:48-51 | a fresh worker remembers nothing |
| Processing.Processor.Process | aivoicemail/processor.py:53-79 | the five collections, the calls made and the result are those of the state machine; other items are untouched |
| Processing.Processor.RetrySaved | aivoicemail/processor.py:97-124 | the same for an ack-only or send-only retry |
| Processing.Processor.Pipeline | aivoicemail/processor.py:126-155 | the five collections, the calls made and the result of a first attempt are those of the state machine, which Outcomes.OutcomeIsRight is about |
| Processing.Processor.Deliver | aivoicemail/processor.py:176-188 | the same for sending |
| Processing.Processor.Accepted | aivoicemail/processor.py:189-212 | the same from acceptance on, with the alert of an earlier give-up raised only if there is an alerter |
| Processing.Processor.Ack | aivoicemail/processor.py:229-240 | the same for ack |
| Processing.Processor.AckFailed | aivoicemail/processor.py:86-95 | the same for a failed ack, with the alert exactly at the limit and only if there is an alerter |
| Processing.Processor.BumpFailures | aivoicemail/processor.py:81-84 | one more failure of the item is counted |
| Processing.Processor.GiveUp | aivoicemail/processor.py:242-275 | the same for a give-up |
| Processing.Processor.Failed | aivoicemail/processor.py:110-119 | the same for an unexpected exception |
| Processing.Processor.Evict | aivoicemail/processor.py:166-174 | items not listed are forgotten, the others kept |
| Processing.Forget | aivoicemail/processor.py:170-172 | the stale keys are removed, the rest is unchanged |
| Processing.Processor.constructor | aivoicemail/processor.py:45-51 | a new processor remembers nothing |
| Spooling.Spool.Finalize | asterisk/bin/vm-finalize:7-36 | of the seven arguments the dialplan passes: bad ones change nothing; audio before metadata; the metadata says the line, the language, and has_audio exactly when the WAV is there; a failing command leaves at most a lone WAV, and the recording is in tmp or in ready/; what it does to ready/ is a run of producer moves |
| Spooling.Spool.Get | aivoicemail/spool/local.py:45-59 | exactly which faults are spool errors to be retried and which raise and count; what it returns is what is published; its answer is one the protocol allows |
| Spooling.Spool.Ack | aivoicemail/spool/local.py:61-68 | WAV before JSON; a failing unlink leaves exactly the later files; the directory is that of the protocol after the calls it makes |
| Config.Reader.Lines | aivoicemail/config.py:364-408 | no problem is recorded exactly when the tables meet the conditions, and then every table has its well-formed line, each field the entry of that name |
| Config.Reader.OneLine | aivoicemail/config.py:374-403 | no problem is recorded exactly when this table meets the conditions |
| Config.Reader.Texts | aivoicemail/config.py:375-386 | id, did, mailbox and language are accepted exactly when well-formed; empty ones pass |
| Config.Reader.Menu | aivoicemail/config.py:387-396 | a menu is accepted exactly when it has 1 to 9 distinct two-letter codes |
| Config.Reader.Duplicates | aivoicemail/config.py:404-407 | a problem exactly when two non-empty values are equal |
| Config.Reader.ReadTables | aivoicemail/config.py:368-403 | a problem exactly when some table is not well-formed |
| Config.Reader.Known | aivoicemail/config.py:261-264 | a problem exactly when an unknown key occurs |
| Config.Reader.Get | aivoicemail/config.py:231-243 | a problem exactly when the text is missing without default or of another type |
| Config.Reader.Strings | aivoicemail/config.py:245-252 | a problem exactly when there is no list of texts |
| Config.AllLinesOk | aivoicemail/config.py:364-408 | accepted tables give lines the later theorems can rely on |
| Config.FieldsMirror | aivoicemail/config.py:374-403 | each field of an accepted line is the entry of that name, or its default; with one language that is the default language |
| Config.TableReadsBack | aivoicemail/config.py:374-403 | every well-formed line has a table that is accepted and gives that line |
| Config.LineWithId | aivoicemail/config.py:201-202 | the line with this id, or no line has it |
| Generate.RefusedOnlyWhenEmpty | aivoicemail/generate.py:36-39 | an accepted configuration is refused exactly when some id or number is empty |
| Generate.ExtensionsLines | aivoicemail/generate.py:115-129 | it raises exactly when a value may not be written; otherwise the file, loaded after extensions.conf, is the described dialplan |
| Generate.LineContext | aivoicemail/generate.py:88-112 | the statements of a line load as its described extensions, whatever was loaded before, the hangup handler included; CallFlow and HangUps prove what these do |
| Generate.LookupSection | aivoicemail/generate.py:116-122 | one comparison per line, in order |
| Generate.BaseLoads | asterisk/etc/extensions.conf:5-38 | the statements of the hand-written file, line by line, load as its extensions, vm-finalize's shell command included |
| CallFlow.DialplanMeansTheConfiguration | aivoicemail/generate.py:88-129 | every call ends; it reaches Record exactly when the number, less one plus sign, is a line's DID, with that line's variables and the language the key chooses; then vm-finalize is run once with these, and otherwise not at all |
| CallFlow.CallReachesItsLine | asterisk/etc/extensions.conf:12-31 | a call to a line is answered and recorded there once, after the right prompts, and handed to vm-finalize once with the line's id, the language chosen, both numbers, the start, the recording's name and that there is one |
| CallFlow.OtherCallsAreRejected | asterisk/etc/extensions.conf:22-31 | any other call hears and records nothing, and vm-finalize is not run |
| HangUps.HangUpAnywhere | asterisk/etc/extensions.conf:33-38 | whenever the caller of a line hangs up, vm-finalize is run exactly once, with that line's id and DID and a language of the line, unless he heard nothing; it is told of a recording if one was made |
| Handover.ArgumentsAreAccepted | asterisk/bin/vm-finalize:10-12 | vm-finalize accepts every line id and language that the dialplan hands over, auto included |
| Handover.EndOfCall | asterisk/bin/vm-finalize:7-36 | from the call to ready/: whenever the caller hangs up, the item published is for the line called, with the recording if there is one, and there is none only if he heard nothing |
| Handover.WholeCallIsHandedOver | aivoicemail/generate.py:126-129 | a call that nobody cuts short is handed over with the language chosen and as recorded |
| CallFlow.PlanUnique | aivoicemail/generate.py:115-129 | no extension is defined twice |
| CallFlow.PressedRuns | aivoicemail/generate.py:103-111 | a menu key records in its language, any other key in the default |
| CallFlow.CheckRuns | asterisk/etc/extensions.conf:25-31 | only numbers of digits alone go on to the lookup |
| CallFlow.LookupFinds | aivoicemail/generate.py:117-121 | the lookup reaches the line with this number |
| Prompts.PromptNamesDistinct | aivoicemail/prompts.py:65-77 | no two prompts of a configuration share a name |
| Prompts.NameTellsLine | aivoicemail/prompts.py:65-73 | a prompt name determines its line and its prompt |
| Prompts.BuildPrompts | aivoicemail/prompts.py:80-105 | it raises exactly when a menu language has no template; otherwise it gives every line's prompts in order |
| Prompts.BuiltUnderTheirNames | aivoicemail/prompts.py:104-105 | the built prompts carry the names of the prompt list, in its order |
| Prompts.BuildLine | aivoicemail/prompts.py:82-104 | the dictionary lookups by name give each prompt its own text |
| Prompts.MenuSegments | aivoicemail/prompts.py:92-96 | company name, then each option with its digit and pause; Agreement.MenuSpeaksTheKeys ties the digits to the keys of the dialplan |
| Prompts.Fill | aivoicemail/prompts.py:40-43 | every placeholder is replaced, one after the other; Prompts.FillSays says what comes out |
| Prompts.FillSays | aivoicemail/prompts.py:40-43 | of a text with placeholders: the company name stands for {company} and the URL for {privacy_url}, everything else is unchanged, if the name has no opening brace |
| Prompts.PromptSays | aivoicemail/prompts.py:80-105 | each prompt of the list is built with its line, its kind, its texts in the right languages and order, and its pauses |
| Prompts.TransparencyProblems | aivoicemail/prompts.py:108-124 | the report, problem by problem |
| Prompts.ReportIsTrue | aivoicemail/prompts.py:108-124 | a problem is reported if and only if a line has that language and it lacks its template, or the named notice the named phrase |
| Prompts.ReportIsTransparency | aivoicemail/prompts.py:108-124 | nothing is reported exactly when every checked notice contains every phrase of its language |
| Agreement.DialplanPlaysThePromptList | aivoicemail/prompts.py:76-77 | a prompt is played by some call exactly when it is in the prompt list |
| Agreement.PlayedIsListed | aivoicemail/generate.py:100-111 | every prompt any call plays is in the list |
| Agreement.MenuSpeaksTheKeys | aivoicemail/prompts.py:91-97 | the built menu prompt says the company name and then, in each language of the menu, the key that records in that language, with the pauses in milliseconds |
| Agreement.EveryRecordingIsAnnounced | aivoicemail/prompts.py:98-124 | with an empty report, every recording of every call is preceded by a built notice that says every phrase in each language it speaks |
| Pcap.Alaw | aivoicemail/sipp/pcap.py:24-35 | the step-by-step encoder gives the code word whose decoding the quantisation bound is about |
| Pcap.QuantisationBound | aivoicemail/sipp/pcap.py:24-35 | decoding gives every 16-bit sample back within half its quantiser step, that is, within 8 or a 32nd part of it |
| Pcap.WritePcap | aivoicemail/sipp/pcap.py:57-74 | the bytes of the file, the packet count, and exactly when struct.pack raises; the round trips below read these bytes with a reader of its own constants |
| Pcap.HeadersRoundTrip | aivoicemail/sipp/pcap.py:57-74 | a reader of microsecond Ethernet captures of version 2.4 accepts the file and gets ceil(n/160) packets with the right sockets, sequence numbers, time stamps and capture times |
| Pcap.AudioRoundTrip | aivoicemail/sipp/pcap.py:57-74 | every sample comes back within 8 or a 32nd part of it, followed by fewer than 160 of padding |
| Pcap.RecordReads | aivoicemail/sipp/pcap.py:63-73 | one record reads back as its packet |
| Retry.Chain | aivoicemail/retry.py:9-24 | the first step that succeeds answers; bounds on calls and sleep, with equality exactly when nothing skips early |
| Retry.Step | aivoicemail/retry.py:11-23 | the attempts of one provider |
| Alerts.Spacing | aivoicemail/alerts.py:14-25 | sent alerts i < j of one kind are at least j - i hours apart, for any clock |
| Alerts.KindsAreIndependent | aivoicemail/alerts.py:14-25 | alerts of one kind do not depend on the others |
| Alerts.SuppressedOnlyWithinTheHour | aivoicemail/alerts.py:15-17 | for every suppressed alert one of its kind was sent at a time less than an hour before the suppressed one's clock reading |
| Alerts.Alerter.Notify | aivoicemail/alerts.py:14-25 | the outcome and the remembered time |
| Alerts.Alerter.Check | aivoicemail/alerts.py:27-38 | the due alerts in order, up to the first exception; in seconds, what there is reason for was sent less than an hour ago if the mailer takes it, and nothing else is |
| ListWire.ListReady | aivoicemail/spool/vm_spool.py:49-63 | exactly the items of the directory, each once, oldest first, with times rounded towards zero |
| ListWire.CmdList | aivoicemail/spool/vm_spool.py:73-80 | the text is the printed form of the directory's one listing |
| ListWire.ParseList | aivoicemail/spool/ssh.py:11-18 | every line in order, or the first line that is refused |
| ListWire.BackendsAgree | aivoicemail/spool/ssh.py:11-18 | reading the printed list gives that list exactly when no time is negative |
| ListWire.ListOverSsh | aivoicemail/spool/local.py:33-37 | both backends list a directory alike |
| ListWire.LineReadsBack | aivoicemail/spool/vm_spool.py:79-80 | one printed line reads back |
| SummaryPrompt.DelimiterOnlyAtEnd | aivoicemail/llm/schema.py:100-102 | the user prompt contains the closing delimiter exactly once, at its end |
| SummaryPrompt.TranscriptStands | aivoicemail/llm/schema.py:100-102 | between the two tags stands the transcript, unchanged if it does not contain the closing one, else with spaces added at most |
| SummaryPrompt.OnlySpacesAreAdded | aivoicemail/llm/schema.py:100 | replacing the delimiter adds spaces and changes nothing else |
| SummaryPrompt.SafeIsClean | aivoicemail/llm/schema.py:100 | replacing creates no new delimiter, also across boundaries |
| SummaryPrompt.CleanTextIsKept | aivoicemail/llm/schema.py:100 | a transcript without the delimiter is unchanged |

## Left out

- Spooling.Spool.Finalize: the caller, dialled number, times and duration it writes into the JSON, and how it cleans them,
  are not modelled; has_audio, the line, the language and the name of the recording are.
- Delivery.FallbackKeepsAttachments: speaks of an email that an earlier call cached; the exact condition for every
  give-up is `Calls.FallbackKeepsAttachmentsIff`.
- Mail transport, HTTP, speech detection, transcription, summaries, text to speech, SSH and tar: foreign calls, modelled
  as answers.
- Email wording (`render.py`): an email is opaque and rendering may fail.
- The `SpoolError` branch of `_retry_saved`: neither of its two callees can raise one, since `_ack` catches everything and
  sending raises other errors.
- An exception that leaves the loop (in `Alerter.check`, in pruning the call log, in decoding a listing that is not UTF-8)
  is the end of the run in `Worker.dfy` and a crash in `Protocol.dfy`.
- The order of duplicate messages in `_lines`: recorded in order of appearance, not sorted.
- The text of the dialplan (`exten =>`, `same =>`, the `vm/` prefix, recording limits): statements are a datatype.
- Codecs and DTMF detection: a key press or its absence is an input, and a caller hangs up after any number of steps.
  `Wait(0.5)` has no effect.
- Whitespace, digits and line breaks outside Latin-1 in the listing, apart from the Unicode line separators.
- `casefold` is an arbitrary function, and templates are as `load_templates` returns them.
- `count_orphans`: its result is an input of the worker.
- A pcap file cut short by an exception of `struct.pack`: only the exception is modelled.
- pjsip, nftables, CDR and the online checks: text generation without further structure.

# serialwrap: verified models of its concurrent and wire-level core

serialwrap shares UART consoles between clients through a daemon. This project models four of its
parts in Dafny and proves what each is there to guarantee.

* **Command arbiter and admission gate** (`AdmissionGate`, `GateHistory`, `ArbiterCore`,
  `CommandArbiter`, `Scheduling`, `ArbiterWorld` and the files named after their properties). The
  gate and the arbiter are classes whose methods are the source's critical sections, each proved
  equal to a function on the state. The same functions are the steps of a state machine in which
  any number of submitters, workers (one per registration of a session), cancelling and recovering
  threads and other clients of the gate interleave. A submit takes a ticket, then inserts under the
  lock, then puts into its queue; a worker dequeues, looks at its stop event, re-checks under the
  lock, sends and finishes: each is a step of its own, so a worker that outlives its registration,
  a put into a discarded queue and a cancel at any moment are all runs of the model. History
  variables (sends, flushes, early cancels, the holder of each ticket, the home of each command)
  carry the statements about whole runs.
* **File transfer** (`Base64`, `Text`, `Shell`, `Quoting`, `Echo`, `Transfer`, `FilePush`,
  `FilePull`). The command lines are built and quoted character by character, so the budget is
  checked against real line sizes, and what an echo can and cannot contain is proved. The console is
  an oracle that may refuse, stall or time out any line, echo it or not, and show any text. The one
  thing assumed of the target is that a sentinel it prints itself, as opposed to the echo of the
  line, comes from a line that ran; that a sentinel the host sees is not the echo's is a theorem, with
  its one exception (`Echo.FooledExactly`).
* **WAL oracle** (`WalFiles`, `WalOracle`, `WalMarker` for the program; `WalWriter`, `WalListing`,
  `WalTheorems`, `WalCompleteness`, `WalHoles` for the writer it watches and the proofs). A scan
  reads one snapshot of a directory in any order; a writer appends, renames, creates and deletes,
  and inode numbers of deleted files come back.
* **Telnet codec** (`Telnet`): RFC 854, "TELNET COMMAND STRUCTURE" and "GENERAL CONSIDERATIONS".

Base64 is section 4 of RFC 4648.

## What was found

* A cursor opened on a WAL file without records knows no sequence number. If that file is rotated
  unused and the archive after it is lost, the scan reports no problem and the hole is invisible
  (`WalHoles.UnknownNumberHidesHole`).
* The bytes before the cursor's offset are compared for the current file only, not for the archive
  that is matched by its inode number, and the first file read is only checked for regression. A
  number used again by a later, meanwhile archived file hides a hole
  (`WalHoles.ReusedInodeHidesHole`).
* `WalCompleteness.NoFalseCompleteness` gives two conditions under which a scan without problems is
  complete. `WalCompleteness.CompleteExactly` gives the exact one: what the first planned file holds
  from the offset on must be empty or start with the number after the cursor's, which is the
  comparison missing at realhw/wal_oracle.py:342-344. `WalCompleteness.CompleteUnnumbered` gives it for
  a cursor without a number.
* The arbiter remembers one running command for each session (sw_core/arbiter.py:405), but a
  registration that is taken down leaves its worker in its send. Once the next registration of the
  session has started a command, a cancel makes the older command evictable and uncounted although
  its worker has not returned, against what sw_core/arbiter.py:316-317 and 340-341 say.
  `ArbiterOverlapRun.OvertakenIsUnprotected` is such a run; `ArbiterOverlap.LostOnlyIfOvertaken` says
  exactly when it happens.
* A remote path that holds the move's sentinel between two line breaks makes the echo of the move
  look like its answer: every push to it can be reported as done while nothing is there
  (`FilePush.EchoFakesPush`). No other path, and no other line of a push, can do this
  (`Echo.FooledExactly`, `FilePush.PushFileTx`).
* The line-limit checks after the first transmission, in push and in pull, can never fire
  (`FilePush.SecondCheck`, `FilePull.NoLateLineLimit`).

## Model

| member | source | states |
|---|---|---|
| Admission.AdmissionGate.Admit | sw_core/admission.py:37-44 | the new gate state and the ticket, or none from a frozen gate; an invariant gate stays invariant |
| Admission.AdmissionGate.Done | sw_core/admission.py:46-48 | exactly the named ticket is gone |
| Admission.AdmissionGate.SetFlag | sw_core/admission.py:50-58 | the flag is switched, and no empty flag set is ever left behind |
| Admission.AdmissionGate.Freeze | sw_core/admission.py:60-67 | frozen, and whoever froze before loses the right to thaw |
| Admission.AdmissionGate.Thaw | sw_core/admission.py:69-81 | opens the gate exactly for the token of the creating freeze_if_idle |
| Admission.AdmissionGate.Survey | sw_core/admission.py:90-99 | the loop's report is, for every port, the kinds of its live tickets and its flags |
| Admission.AdmissionGate.FreezeIfIdle | sw_core/admission.py:83-114 | freezes an idle open gate, refuses a busy one with the report, disowns a frozen one |
| GateHistory.IdleTokenIsOwner | sw_core/admission.py:28-30 | over every history, the idle token is the token of an unsuperseded creating freeze_if_idle, both ways |
| GateHistory.ThawOnlyByOwner | sw_core/admission.py:69-81 | a thaw succeeds if and only if its token created the freeze and nothing superseded it |
| GateHistory.UnfreezeOnlyByOwner | sw_core/admission.py:75-81 | whenever the gate opens, it is by its owner's thaw |
| GateHistory.FreezeIsForever | sw_core/admission.py:60-67 | after any freeze() the gate stays frozen for the rest of every history |
| GateHistory.TicketsAreOutstanding | sw_core/admission.py:37-48 | a ticket is stored if and only if some admit handed it out and no done completed it since |
| GateHistory.FlagsAreOutstanding | sw_core/admission.py:50-58 | a flag is stored if and only if it was switched on and not off since |
| GateHistory.RefusesExactlyWhenBusy | sw_core/admission.py:83-114 | an open gate refuses to freeze if and only if a ticket or flag is really outstanding |
| ArbiterCore.OldestExists | sw_core/arbiter.py:346-355 | among any finished records there are k oldest, ties by insertion order |
| ArbiterCore.OldestUnique | sw_core/arbiter.py:346-355 | and they are unique, so eviction is a function of the records |
| Arbiter.CommandArbiter.Register | sw_core/arbiter.py:95-105 | a registered session keeps its queue, a new one gets the given registration, which no other session has |
| Arbiter.CommandArbiter.FlushOne | sw_core/arbiter.py:163-177 | one turn of the flush loop extends the flushed part of the records by one |
| Arbiter.CommandArbiter.FlushRecords | sw_core/arbiter.py:161-178 | the loop, in any order, ends and releases exactly what a simultaneous flush does; the count is right |
| Arbiter.CommandArbiter.FlushLocked | sw_core/arbiter.py:147-178 | the same as one critical section that keeps the arbiter valid |
| Arbiter.CommandArbiter.UnregisterLocked | sw_core/arbiter.py:107-122 | pop and flush in one section |
| Arbiter.CommandArbiter.CountPending | sw_core/arbiter.py:323-335 | the scan counts the unfinished records of the session, and a cancelled one if `_running` names it |
| Arbiter.CommandArbiter.OldestFirst | sw_core/arbiter.py:347-352 | the candidates sorted by done_at, then insertion |
| Arbiter.CommandArbiter.EvictLocked | sw_core/arbiter.py:337-355 | sorting and dropping a prefix removes exactly the unique set of oldest evictable records |
| Arbiter.CommandArbiter.SubmitLocked | sw_core/arbiter.py:263-290 | not ready, queue full (ticket completed in both) or inserted and evicted |
| Arbiter.CommandArbiter.Cancel | sw_core/arbiter.py:364-380 | the new state, the result and the callback to call |
| Arbiter.CommandArbiter.StartLocked | sw_core/arbiter.py:393-405 | the worker's re-check: running, or ticket completed and skipped |
| Arbiter.CommandArbiter.FailLocked | sw_core/arbiter.py:438-449 | a raised send ends the record, frees the slot, evicts, completes the ticket |
| Arbiter.CommandArbiter.ReturnLocked | sw_core/arbiter.py:451-478 | a returned send, with the status its result calls for |
| Arbiter.CommandArbiter.AddCallback | sw_core/arbiter.py:64-84 | refused, called at once, too late, or stored |
| ArbiterReachable.StateAlways | sw_core/arbiter.py:95-131 | the invariant tying records, queues, workers and submitters holds in every run |
| ArbiterTheorems.SendsAtMostOnce | sw_core/arbiter.py:382-422 | in every interleaving the send callback runs at most once per cmd_id |
| ArbiterTheorems.NeverSentOnceEnded | sw_core/arbiter.py:147-178 | a command flushed, or cancelled while accepted, is not sent, neither before nor ever after |
| ArbiterTheorems.DiscardedQueueIsDead | sw_core/arbiter.py:107-131 | whatever is in a discarded queue, in its worker's hand or put there late is finished or evicted |
| ArbiterTheorems.StartsOnlyItsOwn | sw_core/arbiter.py:382-405 | a worker starts only commands of its own registration, while that registration stands |
| ArbiterTheorems.OneSendPerRegistration | sw_core/arbiter.py:382-422 | a registration has at most one send in flight |
| ArbiterPriority.SmallerKeyFirst | sw_core/arbiter.py:291-293 | of two commands that wait in one queue, the one with the larger key is not sent before the other is sent or over |
| ArbiterTheorems.AcceptedIsServed | sw_core/arbiter.py:112-122 | no accepted record is stale: its item is on its way to a worker that still polls |
| ArbiterTheorems.PendingIsBounded | sw_core/arbiter.py:269-284 | the pending count, computed as the source does, never exceeds 256; a cancelled command counts while `_running` names it |
| ArbiterTheorems.HistoryIsBounded | sw_core/arbiter.py:337-355 | at most max(512, 256 * sessions) records, although flush never evicts |
| ArbiterTheorems.EvictionIsSafe | sw_core/arbiter.py:337-355 | no unfinished record is evicted, nor one that `_running` names |
| ArbiterOverlap.NamedUntilOvertaken | sw_core/arbiter.py:405 | from its start until its worker returns, a command is the one `_running` names if and only if no other worker of its session has started a command since |
| ArbiterOverlap.NamedWhileOpen | sw_core/arbiter.py:314-317 | so it is named, counted and kept as long as its registration stands |
| ArbiterOverlap.LostOnlyIfOvertaken | sw_core/arbiter.py:337-351 | before its worker returns, a record may be evicted, and goes uncounted, if and only if it was cancelled and another worker of its session has started a command since; it is gone only in that case |
| ArbiterOverlapRun.OvertakenIsUnprotected | sw_core/arbiter.py:323-335 | a run, for any session and two commands, in which a command in its send may be evicted and is not counted |
| ArbiterLifeCycle.EvictsOldestFirst | sw_core/arbiter.py:352-355 | an evicted record is no younger than any evictable record that is kept |
| ArbiterLifeCycle.EvictsEnough | sw_core/arbiter.py:344-355 | the exact number of records left |
| ArbiterLifeCycle.LifeCycle | sw_core/arbiter.py:161-177 | each step changes each record only along the life cycle, and only the step meant to |
| ArbiterTheorems.LifeCycleAlways | sw_core/arbiter.py:364-376 | the same for every step of every run |
| ArbiterTheorems.SpentForever | sw_core/arbiter.py:235-291 | an evicted record never comes back |
| ArbiterTheorems.EndStatesAbsorb | sw_core/arbiter.py:438-474 | done and error absorb, a set done_at is never cleared, canceled only becomes error |
| ArbiterTickets.TicketsAlways | sw_core/arbiter.py:229-290 | in every run each live ticket has one owner, and each unfinished command under admission holds one |
| ArbiterHandoff.OneHolderEach | sw_core/arbiter.py:480-483 | whoever holds a ticket holds a live one that nobody else holds |
| ArbiterHandoff.CompletedForGood | sw_core/admission.py:37-48 | a completed ticket number is never live again, so none is completed twice |
| ArbiterHandoff.NoTicketLeaks | sw_core/arbiter.py:161-178 | at rest the gate holds no command ticket |
| ArbiterHandoff.FrozenGateIsEmpty | sw_core/admission.py:83-114 | from the freeze to its thaw no ticket is live, in every run |
| ArbiterHandoff.HandoffIsSafe | sw_core/arbiter.py:229-233 | meanwhile no command under admission is accepted, running or about to start, nor is its submit under way |
| ArbiterHandoff.RegisteredBeforeCancel | sw_core/arbiter.py:364-379 | a callback registered and not dropped before a successful cancel is called |
| ArbiterHandoff.CancelledBeforeRegister | sw_core/arbiter.py:71-84 | registration after the cancel is refused or calls at once |
| ArbiterHandoff.NeverTooLate | sw_core/arbiter.py:71-84 | a registration is never answered with success while the callback is dropped |
| Base64.RoundTrip | sw_core/file_transfer.py:220 | decoding undoes encoding, for every byte string |
| Base64.EncodedLength | sw_core/file_transfer.py:206-209 | four symbols for every three bytes begun |
| Shell.ChunkSize | sw_core/file_transfer.py:551-555 | the UTF-8 size of a chunk's line from that of the empty chunk's |
| Quoting.LineHolds | sw_core/file_transfer.py:474-513 | a built line holds a sentinel if and only if a path or an encoded chunk in it does, whatever quoting does to it; a probe never does |
| Echo.SeenIsPrinted | sw_core/file_transfer.py:3-5 | a sentinel seen after stripping the echo was printed by the target, unless a text in the line brings it as a line of its own |
| Echo.FooledExactly | sw_core/file_transfer.py:3-5 | some answer in which nothing ran is taken for success if and only if a text in the line brings the sentinel as a line of its own |
| Transfer.ConfirmedHasRun | sw_core/file_transfer.py:252-277 | a confirmed line has run, unless its echo may have been taken for the answer |
| FilePush.ChunkFits | sw_core/file_transfer.py:172-193 | every chunk up to the computed capacity fits, with either decoder and redirection |
| FilePush.ChunksOfJoin | sw_core/file_transfer.py:437-441 | the chunks joined are the data, for every size; none is larger; the empty file is one empty chunk |
| FilePush.ChunkStored | sw_core/file_transfer.py:219-222 | running a chunk's line appends exactly that chunk |
| FilePush.SecondCheck | sw_core/file_transfer.py:202-214 | the checks repeated after the probe cannot fail |
| FilePush.Preflight | sw_core/file_transfer.py:158-193 | turned down if and only if `PushTooSmall`; otherwise the capacity |
| FilePush.SendChunks | sw_core/file_transfer.py:216-277 | confirmed chunks have left the whole data in the temporary file; every line fits; no line-limit error |
| FilePush.Publish | sw_core/file_transfer.py:279-311 | the result follows from the answer to the checksum line, be it missing, different or equal, and a success ends with that line and the move; the remote path changes to the whole data or not at all |
| FilePush.PushFileTx | sw_core/file_transfer.py:140-311 | every line sent fits; the line-limit error if and only if nothing was sent, decided by `PushTooSmall`; every answer to a checksum line decides the result; success ends with a checksum and a move; all or nothing at the remote path; after success the file is there unless the move was not run, which only a path with a line of its own that is the sentinel allows; a cooperative target means success |
| FilePush.PushedIsChecked | sw_core/file_transfer.py:279-291 | after a successful push the last checksum the target reported is that of the data |
| FilePush.MismatchHasCause | sw_core/file_transfer.py:284-291 | a mismatch is reported only after an answer that differs |
| FilePush.EchoFakesPush | sw_core/file_transfer.py:300-303 | for every remote path with such a line there is a console on which a push succeeds and the path stays empty |
| FilePull.CommandHoldsMarker | sw_core/file_transfer.py:508-513 | the built command holds a marker if and only if the path does, whatever quoting does to it |
| FilePull.PullRoundTrip | sw_core/file_transfer.py:687-698 | for every file and white space, after any echo or noise, extraction yields exactly its base64 |
| FilePull.EchoGivesNothing | sw_core/file_transfer.py:508-513 | an echo, stripped or not, is never taken for a file |
| FilePull.PullFileTx | sw_core/file_transfer.py:350-429 | every line fits, the target is unchanged, nothing sent if and only if the budget is too small, the result is `PullRun`, the late check of the budget included |
| FilePull.NoLateLineLimit | sw_core/file_transfer.py:382-385 | when the first checks have passed, the late check of the budget cannot turn the pull down |
| FilePull.PullsTheFile | sw_core/file_transfer.py:372-429 | a file the target shows is the file pulled, byte for byte |
| FilePull.PulledIsChecked | sw_core/file_transfer.py:405-416 | whatever is shown, a pulled file has the checksum the target reported last |
| WalFiles.ReadBack | realhw/wal_oracle.py:319-337 | reading what was written gives its records and no corrupt line |
| WalFiles.TailAtBoundary | realhw/wal_oracle.py:217-225 | from a line boundary exactly what follows is read |
| WalFiles.TailAligns | realhw/wal_oracle.py:217-225 | from any offset reading starts at the beginning of a record |
| WalFiles.KeyLessTotal | realhw/wal_oracle.py:231-234 | archive keys are totally ordered, by timestamp and then by number |
| WalOracle.OpenCursor | realhw/wal_oracle.py:175-214 | the backward search finds the last good record of the snapshot |
| WalOracle.ChooseFiles | realhw/wal_oracle.py:243-306 | which files are read, from where, in which order, with which problems |
| WalOracle.ReadLines | realhw/wal_oracle.py:319-337 | the lines of one file: records, raw lines, corrupt lines |
| WalOracle.CheckNumbers | realhw/wal_oracle.py:339-356 | the checks of sequence numbers at the junction and within a file |
| WalOracle.Scan | realhw/wal_oracle.py:237-358 | the whole scan is a fold over the chosen files |
| WalListing.SortsToArchives | realhw/wal_oracle.py:279-288 | any listing of the archives, with other files among them, sorts to the order they were made in |
| WalListing.RotatedPlan | realhw/wal_oracle.py:290-306 | once rotated, the files read are the cursor's, the later archives and the current one |
| WalWriter.RunKeepsInv | realhw/wal_oracle.py:228-234 | in every run of the writer each file holds a stretch of one logical log |
| WalTheorems.CursorStandsAtEnd | realhw/wal_oracle.py:189-207 | an opened cursor stands at the end of the log and knows its last number, if the file has a record |
| WalTheorems.RotationRefinement | realhw/wal_oracle.py:237-358 | for any number of rotations a scan returns exactly the records appended since, in order, without a problem |
| WalCompleteness.NoFalseCompleteness | realhw/wal_oracle.py:290-356 | whatever was deleted or cannot be read, a clean scan returns a prefix of what was appended, given a known number and the cursor's own file |
| WalCompleteness.CompleteExactly | realhw/wal_oracle.py:339-344 | for a cursor that knows a number, a clean scan is complete if and only if what the first planned file holds from the offset on is empty or starts with the next number |
| WalCompleteness.CompleteUnnumbered | realhw/wal_oracle.py:339-351 | for a cursor that knows none, if and only if the first planned file with records starts with the number after the last one logged |
| WalHoles.UnknownNumberHidesHole | realhw/wal_oracle.py:339-351 | a run of the writer in which an unknown number hides a hole |
| WalHoles.ReusedInodeHidesHole | realhw/wal_oracle.py:290-301 | a run of the writer in which an inode number used again hides a hole |
| WalHoles.SuchNamesExist | realhw/wal_oracle.py:228-234 | three archive names in order, as the runs above assume |
| WalMarker.WaitForMarker | realhw/wal_oracle.py:382-519 | the polling loop is the first decided or last timely scan |
| WalMarker.OkExactly | realhw/wal_oracle.py:437-487 | a scan is accepted if and only if it has a match and no problem of any of the seven kinds |
| WalMarker.OkRestsOnEvidence | realhw/wal_oracle.py:427-487 | ok names the first match of a clean scan, and no earlier scan was decided |
| WalMarker.CleanScanSuffices | realhw/wal_oracle.py:427-487 | a clean scan with a match, made in time and not preceded by a decided one, is reported |
| WalMarker.EnvironmentMeansNoEvidence | realhw/wal_oracle.py:52-54 | a failure blamed on the environment had unreadable or missing evidence |
| WalCompleteness.OkNamesFirstMatch | realhw/wal_oracle.py:437-487 | over a live log, ok names the first matching record appended since the cursor |
| WalCompleteness.MarkerIsFound | realhw/wal_oracle.py:464-487 | a marker in the log is accepted by every scan that can read the files, however often rotated |
| Telnet.TelnetClientCodec.Feed | realhw/telnet_client.py:21-68 | the loop returns and leaves what `Fed` says |
| Telnet.FedInPieces | realhw/telnet_client.py:21-68 | payload, replies and end state do not depend on how the stream is cut |
| Telnet.Decodes | realhw/telnet_client.py:25-67 | data and complete commands decode to exactly the data, answered by the first occurrence of each answer |
| Telnet.EncodeRoundTrip | realhw/telnet_client.py:17-19 | feeding an encoded string gives it back and leaves the codec as it was |
| Telnet.AtMost512Replies | realhw/telnet_client.py:42-57 | whatever it is fed, a codec sends at most 512 replies in its life |
| Telnet.WireFallsSilent | realhw/telnet_client.py:42-57 | two codecs wired back to back fall silent after a bounded number of deliveries |

## Left out

- Arbiter without a gate: modelled as one whose commands are all exempt.
- What `submit` checks before the ticket (regular expression, `expect_reboot`, length, newline), the
  fields of records and results that no decision reads, `get` and `snapshot`.
- Threads, timeouts and clocks: a step may be arbitrarily late, `done_at` is any integer, and join
  timeouts are runs in which the worker goes on.
- `done` of a ticket inside a critical section of the arbiter is taken as one step with it; no other
  thread can tell, since the gate's lock is a leaf.
- Freshness of cmd_ids and freeze tokens is assumed; the priority queue is a multiset from which a
  least item is taken; queue, stop event and thread of a registration share one number.
- ArbiterHandoff.HandoffIsSafe: says nothing of a cancelled command still in its worker, whose ticket
  a flush of its session completes (sw_core/arbiter.py:166-168).
- Admission.AdmissionGate.Survey: the lists of the report are sets; their sorting is not modelled.
- Of the file transfer: `ack_mode` and argument checks, the local files, the slices of a paced line,
  diagnostics in errors; reading a digest out of md5sum's output, the shell's error messages and the
  removal of escape sequences are parameters. White space is that of ASCII. A line that was taken
  runs whole or not at all, and the target prints a sentinel, other than by echoing the line, only if
  the line ran. An echo comes back as it was typed: that a terminal may wrap it, or echo a line break
  as two characters, is not modelled.
- FilePull.PullFileTx: the decoder may be lenient, as Python's is without `validate`; `PullsTheFile`
  assumes only that it agrees with RFC 4648 on well-formed text.
- FilePush.PushFileTx: the promises about the remote path need a temporary name other than it; the
  temporary name has no line break, as the generated one has none.
- Of the WAL oracle: JSON, `verify_record` and CRC-32 are parameters, of which only that the writer's
  lines read back is assumed; a scan sees one instant; the retries of `open_cursor`, opening files on
  Windows, sizes and times in diagnostics. Digits in archive names are those of ASCII.
- WalCompleteness.NoFalseCompleteness: is about `allow_reset=False`; with resets allowed a first
  number 1 is taken as a new beginning and no such claim can hold.
- The daemon's other parts (bridge, sessions, login, tunnels, RPC, CLI, configuration) are not part
  of this model; they would add process and socket plumbing or argument handling.

# Soqucoin SDK, verified

This project models the parts of the Soqucoin exchange SDK on which money
depends, in Dafny, and proves what they promise.

- **Withdrawals.** A durable state machine over two files that are written
  separately, the intents and the set of spent outputs, with a node that may
  accept, refuse, lose the reply or accept under another txid. `Withdrawal`
  gives the protocol as steps, one per write or send, with the process ending or a
  power loss possible between any two; a file is its visible content and the set
  of contents a power loss may leave. `WithdrawalRecords`, `WithdrawalInputs` and
  `WithdrawalOwnership` prove what every run keeps, `WithdrawalHistory` and
  `WithdrawalVerdicts` that what is on disk and what is sent is what was submitted,
  signed and heard, `WithdrawalSender` what holds
  while a send is under way, `WithdrawalTakeover` how a Broadcast intent loses an
  entry, `WithdrawalWait` what Abandon's wait covers and `WithdrawalHold` what a
  rejection holds for. `WithdrawalRecovery` proves what Recover restores from any
  pair of files, `WithdrawalRedrive` what it leaves when it also sends.
  `WithdrawalSteps` and `WithdrawalRuns` put runs together; `WithdrawalOvertaken`,
  `WithdrawalUnsettled` and `WithdrawalEarly` are runs in which more would be
  false. `AtomicFile`, `SpentStore`, `IntentStore` and `WithdrawalEngine` are the
  classes: every engine method carries a ghost trace and is proved to extend a
  run, so whatever holds of runs holds of the engine.
- **The ElectrumX cache.** `CacheRecord` says what each event does to an
  address's record, `ElectrumClient` is the client whose maps those events
  update, and `Freshness` is the protocol: a versioned server, one notification
  per change and subscribed connection, in order, calls that overlap and are
  handled in any order, connections that are replaced.
- **The refresher.** `RefreshPolicy` is the scheduling policy with its exact
  reading from histories of any length; `Refresher` is the loop, with the
  reader, the pings and the connection interfering between any two of its
  critical sections.
- **Bech32m.** `Checksum` is the 30-bit register of BIP 173 with the constant of
  BIP 350, `Regroup` the bit regrouping, `Bech32m` the addresses.
- **Transactions.** `Wire` is the byte format with a reader of the BIP 144 form,
  `TxBuilder` the sizes, fees and builders, `CoinSelection` the largest-first
  selection, `FeeSelection` the two ways the examples choose inputs for a fee.
- **Deposits.** `Deposits` is one pass of the monitor and runs of passes.
- **The split signer.** `SplitSigner` is its reconcile against a store that
  another process keeps changing.
- **Amounts.** `Amounts` is the decimal parser and printer.

`dafny verify dfyconfig.toml` checks the whole project.

## What the claims rest on

- A restart finds the two files as the last process left them, with what a later
  power loss may leave unchanged, or as a power loss left them, each with some
  content it may leave, which is from then on what the disk holds.
- No record has the empty id: Submit refuses it. Where a claim is about any pair of files
  it takes this as given.
- Flags of a run mark what some claims exclude. `reused` is set when a withdrawal
  is given an entry on an outpoint whose confirmation was recorded in the spent
  set. `overtaken` is set when the mark Recover makes for a held intent goes
  through and takes an input over: another withdrawal's unconfirmed record of a
  send, or an input of an intent that is Failed as read and Broadcast in what a
  power loss may leave. `lapsed` is set when the reservation of an intent that is
  Built, or being built, runs out. `unsettled` is set when Recover drops the entry
  on an unconfirmed input of an intent that is Failed as read and Built in what a
  power loss may leave. `turned` is set when the clock goes back.
- Properties one expects that turned out false of the code, each with a
  counterexample and the exact condition under which it holds:
  - Two Broadcast intents never share an input until a confirmation is recorded,
    and each owns its inputs' entries. `WithdrawalOvertaken.SameTxidShares` and
    `WithdrawalOvertaken.OverButOutShares` are runs in which two do, one for each
    kind of takeover. `WithdrawalTakeover.LosesEntryExactly` says at which steps
    an entry is lost, `WithdrawalOwnership.BroadcastDisjoint` that nothing else
    breaks the property, and `WithdrawalOvertaken.TakeoverShares` that every loss
    to a held intent can. That a takeover from an intent that is Failed as read
    can is shown by its run alone.
  - The comment on Rebroadcast says that a send whose outcome is unknown restarts
    Abandon's wait. For a lost reply the code puts the old time back, because the
    error is also a transport error. `Broadcaster.ReadingsPartAtLostReply` says at
    which exchanges, `WithdrawalEarly.AbandonComesEarly` is the run, and
    `WithdrawalWait.UncoversExactly` says which steps take a hand-over out of what
    the wait covers. The model follows the code.
  - No two intents with signed bytes share an input while reservations last, and
    recovery restores every one. `WithdrawalUnsettled.UnsettlingRun` reaches a
    drop that unsettles; `WithdrawalOwnership.LiveDisjoint` says that without one
    the property holds, `WithdrawalUnsettled.UnsettledShares` that from every one
    two Built intents can come to share. For recovery from given files,
    `WithdrawalUnsettled.UnsettledIsNotRestored` against
    `WithdrawalRecovery.RecoversExactly`.
  - An intent is held only when something may be out:
    `WithdrawalHold.HeldWithNothingOut` against
    `WithdrawalHold.PriorMovesExactly`.
  - A ping never misdates the cache: `Freshness.DroppedPingMisdates` against
    `Freshness.PingMisdatesExactly`.
  - The split signer's reconcile leaves no gap: `SplitSigner.GapExists` against
    `SplitSigner.GapExactly`.
- `TxBuilder.WeightIsExact` gives the exact condition of the comment on
  EstimateWeight: without an input the estimate counts two bytes that are never
  written.

## Model

| member | source | states |
|---|---|---|
| `AtomicFile.File.WriteFile` | internal/atomicfile/atomicfile.go:45-84 | Of the steps of a replacement, a failure before the rename leaves the visible content and everything a power loss may leave as they were; one after it shows the new content and adds it to what a power loss may leave; success leaves only the new content |
| `SpentStore.Store.Reserve` | utxo/selector.go:200-255 | Refused exactly when an input has another's entry that has not run out; otherwise every input becomes a reservation of the withdrawal until now plus the TTL, its own sends excepted, and nothing else changes; unless the new set is known durable memory is exactly as before, whatever the file may hold |
| `SpentStore.PutBackUndoesReserve` | utxo/selector.go:240-253 | Putting back what was overwritten undoes a reservation exactly, for every set and every input list, repeated inputs included |
| `SpentStore.Store.Release` | utxo/selector.go:260-274 | Drops exactly the withdrawal's reservations, never a send, and writes only when something was dropped |
| `SpentStore.Store.Forget` | utxo/selector.go:283-309 | Drops everything the withdrawal owns unless the file still holds it; the empty id is refused |
| `SpentStore.Store.MarkBroadcastFor` | utxo/selector.go:367-396 | All or nothing: refused exactly when an input is another's unconfirmed send of another transaction; otherwise every input is an unconfirmed send of this withdrawal in this transaction, in memory whatever the write does, and nothing else changes |
| `SpentStore.Store.IsSpent` | utxo/selector.go:399-411 | Answers for entries that have not run out and drops, in memory alone, one that has |
| `SpentStore.Store.ConfirmSpentAll` | utxo/selector.go:420-437 | Flips exactly the listed entries and writes only on a change |
| `SpentStore.Store.Prune` | utxo/selector.go:444-463 | Drops exactly the confirmed entries more than 3600 seconds old and the reservations that have run out, never an unconfirmed send |
| `SpentStore.Store.constructor` | utxo/selector.go:521-563 | Loading keeps every reservation and every unconfirmed send and drops exactly the confirmed entries more than 7200 seconds old |
| `SpentStore.Store.Owners` | utxo/selector.go:313-349 | Lists each id that owns an entry of the asked kind, each once, and no other |
| `IntentStore.FileStore.Put` | withdraw/store.go:202-218 | Memory is rolled back exactly when the file still holds the old content, so memory and a reader of the file never disagree |
| `IntentStore.FileStore.Create` | withdraw/store.go:168-175 | Refused exactly when the id is held; never writes over a record |
| `IntentStore.FileStore.Update` | withdraw/store.go:179-186 | Refused exactly when the record is missing or no longer in the state the writer read |
| `IntentStore.FileStore.List` | withdraw/store.go:236-240 | Lists exactly the ids in the asked state, each once |
| `Broadcaster.VerdictNeedsAnAnswer` | rpc/client.go:255-399 | Through the client's sorting of an exchange and the engine's reading of it, an attempt is treated as not out exactly when the bytes have no txid, the client will not send to the node's URL, the credentials were refused, or the node answered with an error other than already-in-chain; a lost reply, however wrapped, never is, nor is a request that could not be formed |
| `Broadcaster.ReadsExactly` | rpc/client.go:199-399 | What every exchange is read as, in both directions and by the node's own codes: accepted on the computed txid, on -27 and on a lost reply the lookup resolved; a mismatch on another txid or none, naming it; rejected on every other code but -28 and -10, on a URL the client will not send to and on bytes without a txid; refused on -28, -10 and refused credentials; unknown on all else |
| `Broadcaster.ReadingsPartAtLostReply` | withdraw/engine.go:1004-1015 | Rebroadcast puts the time back at exactly the exchanges that show the bytes were not taken, a request that could not be formed excepted, and at a lost reply that was not resolved; the last is where the bytes may be out and the time is put back all the same |
| `WithdrawalEngine.Engine.constructor` | withdraw/engine.go:820-827 | An engine opened on the two files, as the process before it left them or as a power loss did, is at the end of a run of the protocol, before its repair |
| `WithdrawalEngine.Engine.Submit` | withdraw/engine.go:485-516 | Of any submits of one id one creates, with exactly the submitted address, amount and fee rate, Created and with every other field unset; an existing record is never touched; invalid parameters write nothing; a conflict is reported exactly when the stored address, up to case, amount or fee rate differs |
| `WithdrawalEngine.Engine.Build` | withdraw/engine.go:531-604 | Continues the run; sends nothing; on success, durable or not, the record is Built with the signer's bytes and txid over the selected inputs, which are all the intent's own, and its terms are unchanged; a record that was not saved leaves no reservation; a build put off leaves the intent Created with the attempt counted, and nothing else changed, and no reservation it did not have; one given up leaves it Failed with nothing built, and no reservation once that is durable; nobody else's entries change |
| `WithdrawalEngine.Engine.DeferBuild` | withdraw/engine.go:730-737 | Leaves the intent Created with the attempt counted, or as it was when the record was not written |
| `WithdrawalEngine.Engine.FailBuild` | withdraw/engine.go:1109-1120 | The record is Failed with nothing built unless it was not written; the inputs are freed exactly when the verdict is durable |
| `WithdrawalEngine.Engine.Broadcast` | withdraw/engine.go:645-714 | Continues the run; at most one hand-over, of the stored bytes; what is saved is given field by field from the kinds of the answer and from whether an earlier attempt may be out: Broadcast exactly on success or already-in-chain, Failed exactly on a rejection with no earlier attempt, a hold exactly on one with an earlier attempt, the txid the node gave on a mismatch, the attempt, its time and the mark that bytes may be out; the inputs are then sends of this withdrawal in its transaction, or in the one the node named; once it has its inputs it ends with what its new state asks for; nobody else's entries change; every way of not sending leaves the sends as they were |
| `WithdrawalEngine.Engine.RecordAttempt` | withdraw/engine.go:661-669 | Nothing can be handed over unless the attempt is the only content a power loss can leave |
| `WithdrawalEngine.Engine.MarkIfDue` | withdraw/engine.go:720-725 | After an acceptance, a foreign txid or a rejection with a prior attempt, every input is recorded as the intent's own send, in its transaction or the one the node named, in every run; no other outpoint's entry changes |
| `WithdrawalEngine.Engine.SaveVerdict` | withdraw/engine.go:671-714 | Saves the settled record and releases the inputs only after a durable first rejection |
| `WithdrawalEngine.Engine.Rebroadcast` | withdraw/engine.go:987-1020 | Continues the run; never leaves Broadcast and touches no other record; at most one hand-over, of the stored bytes, and only after a durable save; once saved, the time Abandon waits from is this send's exactly on success, on already-in-chain, or on an error of none of the kinds permanent, transient and unauthorized, and otherwise the one before |
| `WithdrawalEngine.Engine.UpdateConfirmations` | withdraw/engine.go:943-973 | Reaches Confirmed only from Broadcast and at the required depth, confirming exactly the intent's inputs; refuses a depth that is not positive |
| `WithdrawalEngine.Engine.Abandon` | withdraw/engine.go:1038-1091 | Only a Broadcast or held intent; goes through exactly when the wait since the last send is over, the node knows the transaction under neither of its txids and has every input unspent; then it is Failed and dated, with nothing else changed, and its entries go only once that is durable |
| `WithdrawalEngine.Engine.AskNode` | withdraw/engine.go:1057-1079 | Clears exactly when the node knows none of the txids and has every input unspent; refutes only on a txid it knows or a spent input; a call that fails is reported as such |
| `WithdrawalEngine.Engine.Recover` | withdraw/engine.go:820-893 | Continues the run; when the passes' writes land and nothing was in their way, every intent that is then Broadcast or held owns sends on all its inputs and every other Built one entries that had not run out when taken, whatever was sent and whatever came of it; under an ended context it sends nothing, changes no record and leaves exactly the set the four passes prescribe |
| `WithdrawalEngine.Engine.ReleaseOrphanReservations` | withdraw/engine.go:904-928 | Releases exactly the reservations of Created and Failed intents, keeping those of ids the store does not know |
| `WithdrawalOwnership.ReachableInv` | withdraw/engine.go:531-1120 | Every world of every run, with the process ending or a power loss between any two writes or sends and any mix of failed, landed and durable writes, satisfies the invariant the theorems below rest on |
| `WithdrawalOwnership.SameBytes` | withdraw/engine.go:581-603 | Same bytes: over every run all bytes ever handed to the node for one intent are equal, and are those of every record a power loss may leave |
| `WithdrawalHistory.RunsAreAsCalled` | withdraw/engine.go:485-604 | Over every run, of every record a power loss may leave: its address, amount and fee rate are those of a submit of that id in the run; it has bytes only as the signer gave them for that id, with their txid and over inputs reserved for that id, and a Created one has none; and all bytes handed over were signed so |
| `WithdrawalVerdicts.VerdictsWereHeard` | withdraw/engine.go:671-725 | Over every run, of every record a power loss may leave: it is Broadcast or Confirmed only if an answer to a hand-over of its own said the node has it, held or Failed with bytes and not abandoned only if one said the bytes will never be taken, and names a foreign txid only as an answer did |
| `WithdrawalOwnership.FailedIsNotOut` | withdraw/engine.go:661-725 | Verdict soundness: an intent Failed and not abandoned, in any content a power loss may leave, has no hand-over that was accepted, unknown, unclassified or interrupted |
| `WithdrawalOwnership.RejectionAfterOutHolds` | withdraw/engine.go:690-697 | A rejection after any hand-over that may be out leaves the intent Built and held with the same bytes, its inputs marked first |
| `WithdrawalHold.HeldWithNothingOut` | withdraw/engine.go:663-663 | The converse is false: a run in which a deferred build and then a first, rejected send leave an intent held though nothing was out |
| `WithdrawalHold.PriorMovesExactly` | withdraw/engine.go:661-714 | Over every run, exactly what a rejection will hold for: the mark is set by nothing but a build put off or an attempt recorded in the file, handed over or not, and cleared by nothing but the saving of the refusal or rejection of an attempt that had no prior one; a power loss brings back the mark of the record it leaves |
| `WithdrawalOwnership.BroadcastDisjoint` | utxo/selector.go:367-396 | Whatever the clock does, two Broadcast intents never share an input, in any content a power loss may leave, until an outpoint is reused or an input taken over |
| `WithdrawalOwnership.LiveDisjoint` | utxo/selector.go:200-255 | If moreover no Built intent's reservation ran out and Recover freed no input of one that a power loss may still leave Built, no two intents with signed bytes share an input |
| `WithdrawalSender.SenderOwnsInputs` | withdraw/engine.go:656-669 | At every send of every run, whatever came before: from the reservation Broadcast begins with to the hand-over and on to the verdict, every input without a recorded confirmation has an entry, the sender's, that has not run out, while the clock stays within the reservation; and where the reservation was written so does every content of the file |
| `WithdrawalSender.NobodyElseOwns` | withdraw/engine.go:645-714 | Over every run, until the verdict is saved no other withdrawal owns an input of the bytes being sent, wherever the clock goes |
| `WithdrawalSender.AnsweredMarkSucceeds` | utxo/selector.go:371-376 | Over every run, marking the inputs of an answered send is never refused |
| `WithdrawalOwnership.SenderOwnsOnDisk` | withdraw/engine.go:656-669 | Until an outpoint is reused or an input taken over, no content of the file gives another withdrawal an input of the bytes handed over, also when there was nothing to reserve |
| `WithdrawalOwnership.BroadcastOwnsInputs` | withdraw/engine.go:671-682 | Until an outpoint is reused or an input taken over, a Broadcast intent's inputs stay recorded as its own sends until a confirmation is recorded for them |
| `WithdrawalTakeover.LosesEntryExactly` | withdraw/engine.go:828-871 | Over every run, while the process goes on, a Broadcast intent loses its own record of a send on an input without a recorded confirmation exactly when a mark Recover makes for another intent goes through over that input; once startup is over that is a held one's, and counts as a takeover |
| `WithdrawalOvertaken.TakeoverShares` | withdraw/engine.go:864-871 | From every such loss to a held intent steps lead on to a second Broadcast intent on the input, with nothing reused and no confirmation recorded |
| `WithdrawalOvertaken.SameTxidShares` | withdraw/engine.go:690-725 | A run with no confirmation recorded in which two withdrawals on the same terms sign the same bytes, the held one takes the coin over from the sent one and is abandoned, and two Broadcast intents share the coin |
| `WithdrawalOvertaken.OverButOutLoses` | withdraw/engine.go:840-871 | A run with no confirmation recorded in which the input of an intent abandoned in the file and not on the disk is marked for a held one, and after a power loss the intent is Broadcast without its entry |
| `WithdrawalOvertaken.OverButOutShares` | withdraw/engine.go:840-871 | The same run carried on: two Broadcast intents share the coin |
| `WithdrawalWait.AbandonWaits` | withdraw/engine.go:1051-1056 | Over every run in which the clock does not go back, Abandon comes at least its wait after every hand-over of the intent's bytes that was not a re-send taken back |
| `WithdrawalWait.UncoversExactly` | withdraw/engine.go:987-1020 | Over every run in which the clock does not go back, a hand-over that the wait covers stops being covered exactly when a re-send of the intent is answered as if refused, the time put back is before the hand-over and that save reaches the file; nothing else uncovers any |
| `WithdrawalWait.HandOverIsCovered` | withdraw/engine.go:661-669 | Every hand-over is covered when it is made, whatever a power loss leaves |
| `WithdrawalWait.CoveredWaits` | withdraw/engine.go:1051-1056 | Abandon comes at least its wait after every hand-over that is covered |
| `WithdrawalEarly.AbandonComesEarly` | withdraw/engine.go:1012-1014 | A run in which the reply to a re-send is lost, so the bytes may be out, and Abandon is let through with its wait not over |
| `WithdrawalRecovery.BroadcastRestored` | withdraw/engine.go:828-837 | From any pair of files a Broadcast intent that shares no input with another one, nor with an intent held under its txid, ends owning permanent entries on all its inputs exactly when no unconfirmed send of another transaction stands on one of them |
| `WithdrawalRecovery.HeldRestored` | withdraw/engine.go:864-871 | A held intent likewise, against what is left after the drops |
| `WithdrawalRecovery.BuiltRestored` | withdraw/engine.go:872-881 | Any other Built intent ends owning entries that have not run out on all its inputs exactly when none of them is another's after the drops |
| `WithdrawalRecovery.OrphansReleased` | withdraw/engine.go:904-928 | No Created or Failed intent keeps a reservation |
| `WithdrawalRecovery.RecoversExactly` | withdraw/engine.go:820-928 | From any pair of files in which no two live intents share an input, everything with signed bytes is restored exactly when, in the set that was loaded, no Broadcast intent's input carries another's unconfirmed send of another transaction and no Built one's carries another's entry that the drops leave |
| `WithdrawalRecovery.BroadcastRecovers` | withdraw/engine.go:828-837 | From every crash point of every run in which nothing was reused or taken over, whatever lapsed and however late the process starts again, every Broadcast intent is restored, unless an intent held under its txid shares an input |
| `WithdrawalRecovery.RecoveryRestores` | withdraw/engine.go:820-928 | Recovery under an ended context: from every crash point of every run with nothing reused, taken over, lapsed or unsettled and no confirmation recorded for an input of a Built intent, however late the process starts again, every Broadcast and held intent ends with permanent entries of its own, every other Built intent with entries of its own that have not run out, and no Created or Failed intent keeps a reservation, in any order of the listings and at any clock readings |
| `WithdrawalRedrive.TurnsRestore` | withdraw/engine.go:858-893 | From any pair of files with nothing in the way, whatever comes of each send, after the last pass every intent that is then Broadcast or held owns sends on all its inputs and every other Built one entries that had not run out when taken |
| `WithdrawalRedrive.CrashPointUnblocked` | withdraw/engine.go:820-928 | At every crash point of every run as in RecoveryRestores, however late the process starts again, nothing is in the way of the passes, which is what Recover's result asks for |
| `WithdrawalRedrive.LiveRecoveryRestores` | withdraw/engine.go:820-893 | Recovery under a context that has not ended: from every such crash point, whatever comes of each send, every intent that is then Broadcast or held owns sends on all its inputs and every other Built one entries that had not run out when taken |
| `WithdrawalUnsettled.UnsettlingRun` | withdraw/engine.go:904-928 | A run in order that reaches such a drop: a rejection in the file and not on the disk, a restart, and Recover's release of the coin |
| `WithdrawalUnsettled.UnsettledIsNotRestored` | withdraw/engine.go:904-928 | A run in which Recover, reading a rejection that is not durable, frees an input, another withdrawal takes it, and from a crash point Recover leaves the signed bytes without it, though nothing was reused, taken over or run out |
| `WithdrawalUnsettled.UnsettledShares` | withdraw/engine.go:904-928 | The converse of LiveDisjoint: from every drop that unsettles, in every run so far in order, steps lead on to two Built intents that share the input, with nothing reused, taken over or run out on the way |
| `Freshness.ReachableInv` | electrumx/client.go:522-811 | Every state of every run of overlapping calls over replaced connections satisfies the invariant on tickets, noted changes and coverage |
| `Freshness.CleanIsFresh` | electrumx/subscribe.go:51-146 | Freshness: a clean record subscribed on the live connection holds the server's current set, or the notification of the change is unread on that connection |
| `Freshness.CleanCoversNoted` | electrumx/client.go:791-811 | A clean record is never older than any change the client was told of, on any connection |
| `Freshness.PingMisdatesExactly` | electrumx/subscribe.go:151-175 | A ping answered on any connection that dates the cached set dates it too late exactly when a notification of a change between the two was read on that connection and ignored because it was no longer live |
| `Freshness.PingDatesHonestly` | electrumx/subscribe.go:151-175 | So a ping of the live connection never dates a set older than what the server held when it answered the ping |
| `Freshness.DroppedPingMisdates` | electrumx/subscribe.go:161-175 | It does happen: a run in which a ping answered on a connection that has since been dropped dates a set the server had already reported changed |
| `ElectrumClient.Client.NoteChange` | electrumx/subscribe.go:51-72 | A new status on the live connection is stored, dirties the record, counts the change, leaves a refresh pending and wakes the refresher; anything else changes nothing |
| `ElectrumClient.Client.CommitRefresh` | electrumx/client.go:649-715 | A superseded reply changes nothing and one from a replaced connection leaves an error and a pending refresh; any other is cached, is the last to have reported, clears the error, and dates the record as clean exactly when no change was noted meanwhile; the cache then shows exactly what the reply listed, for a reply that lists each outpoint once, and every other address is as it was |
| `ElectrumClient.Client.RecordRefresh` | electrumx/client.go:791-811 | Cleans the record exactly when the call succeeded, was not superseded and no change was noted meanwhile |
| `ElectrumClient.Client.RecordRefreshFailure` | electrumx/client.go:751-767 | A superseded reply changes nothing; one from a replaced connection leaves a refresh pending |
| `ElectrumClient.Client.RecordStale` | electrumx/client.go:776-782 | The error is recorded, a refresh is pending and the refresher is woken |
| `ElectrumClient.Client.CommitSubscribe` | electrumx/subscribe.go:125-146 | Stores connection and status; keeps a clean record clean, dated anew, exactly when the status is the one last seen, and otherwise dirties it with a refresh pending; commits nothing from a replaced connection |
| `ElectrumClient.Client.FailSubscribe` | electrumx/subscribe.go:102-114 | Records the error on the address and nothing else |
| `ElectrumClient.Client.Touch` | electrumx/subscribe.go:161-175 | Dates exactly the clean records subscribed and last refreshed on that connection |
| `ElectrumClient.MergeShowsReply` | electrumx/client.go:649-715 | Whatever was cached, the merged set shows exactly the outpoints, values and heights of a reply that lists each outpoint once |
| `ElectrumClient.MergeKeepsStamps` | electrumx/client.go:665-688 | An output that is still listed keeps its asset stamp |
| `ElectrumClient.Merge` | electrumx/client.go:665-696 | Every merged output is a cached one with the server's value and height or a new one, and every listed outpoint is there |
| `RefreshPolicy.Policy.OnEvent` | electrumx/refreshpolicy.go:130-158 | Decides and updates the schedule as the reference functions do, for every state and event |
| `RefreshPolicy.Policy.OnResult` | electrumx/refreshpolicy.go:160-194 | Answers and updates the schedule as the reference functions do, for every state and outcome |
| `RefreshPolicy.StateOfHistory` | electrumx/refreshpolicy.go:112-194 | For histories of any length the whole schedule is read off the history: paced exactly when the last report was a lost connection or timeout with no retry since, the parity of the run of timeouts, a tick to make up, and the rung of the ladder |
| `RefreshPolicy.ReconnectsExactly` | electrumx/refreshpolicy.go:173-193 | A report rebuilds the connection exactly when it is a lost connection or a timeout whose run has even length |
| `RefreshPolicy.BackoffExactly` | electrumx/refreshpolicy.go:160-172 | A failure is retried after min(2^j, 60) seconds, j the failures since the last success; a success sets no retry |
| `RefreshPolicy.KicksRunUnlessPaced` | electrumx/refreshpolicy.go:134-138 | A wake runs a pass exactly when no connection backoff is pending |
| `RefreshPolicy.DecidesExactly` | electrumx/refreshpolicy.go:130-158 | What every event of every history decides: which events run a pass, which of them a full one, which report and which do nothing |
| `RefreshPolicy.ReportsExactly` | electrumx/refreshpolicy.go:42-76 | What a pass reports by the errors it met: a lost connection before a timeout, and either before anything else |
| `RefreshPolicy.LadderIs` | electrumx/refreshpolicy.go:160-172 | The ladder is 1, 2, 4, 8, 16 and 32 seconds and then a minute |
| `RefreshPolicy.DeferredTickIsMadeUp` | electrumx/refreshpolicy.go:139-157 | A tick deferred by a backoff is made up by the next pass that runs, which is the retry's and is full |
| `RefreshPolicy.RetrySeparatesReconnects` | electrumx/refreshpolicy.go:130-194 | A retry event lies between any two rebuilds of the connection |
| `Refresher.Loop.Step` | electrumx/subscribe.go:350-382 | One event keeps: every noted change pending, every pending change with a queued wake or an armed timer, and a paced policy with its timer armed |
| `Refresher.Loop.Run` | electrumx/subscribe.go:326-413 | No lost wake-up: the same after any number of events, with the reader, the pings and connection changes between them |
| `Refresher.Loop.Pass` | electrumx/subscribe.go:183-239 | After a pass every noted change is pending, and after one with no error everything pending has a wake queued; after a full one with no error every tracked address has had a refresh reported that was begun in the pass |
| `Refresher.Loop.Take` | electrumx/subscribe.go:208-218 | Takes all tracked addresses for a full pass and exactly the pending ones otherwise, and leaves none pending |
| `Refresher.Loop.Refresh` | electrumx/client.go:439-473 | An address has had a refresh reported that was begun in the call, or is returned as failed; a change noted meanwhile is pending |
| `Refresher.Loop.RefreshAddress` | electrumx/client.go:522-570 | A change noted while the call was in flight is never cleared by its reply |
| `Checksum.Polymod` | address/bech32m.go:102-115 | The loops compute the register's fold over the symbols |
| `Checksum.StepInjective` | address/bech32m.go:106-112 | Different registers stay different under the same symbol |
| `Checksum.BurstIsDetected` | address/bech32m.go:129-132 | Sequences of any one length that agree outside six consecutive symbols cannot both pass |
| `Checksum.ChecksumIsUnique` | address/bech32m.go:134-143 | Six symbols complete a data part, of any length, exactly when they are the computed checksum |
| `Checksum.CreateChecksum` | address/bech32m.go:134-143 | Computes that checksum |
| `Checksum.VerifyChecksum` | address/bech32m.go:129-132 | Accepts exactly the sequences whose fold is the bech32m constant |
| `Checksum.PublishedPasses` | address/bech32m.go:36-115 | With the constant and the five generators of the standards, worked out step by step, the symbols of an address that BIP 350 publishes pass |
| `Regroup.ConvertBits` | address/bech32m.go:248-275 | The wrapping, never masked 64-bit accumulator equals exact regrouping of the bit string, for data of every length, with its refusals |
| `Regroup.RegroupBack` | address/bech32m.go:248-275 | For data that fits its width, regrouping with padding to a width no larger, and back, gives the data back |
| `Regroup.RegroupForth` | address/bech32m.go:248-275 | What is accepted without padding, from a width to one no smaller, is what padding its result gives: no second grouping is accepted |
| `Bech32m.Encode` | address/bech32m.go:212-245 | Computes the reference encoding; the version error exactly for versions above 16 |
| `Bech32m.Decode` | address/bech32m.go:147-209 | Computes the reference decoding, error by error in order |
| `Bech32m.ExpandPrefix` | address/bech32m.go:117-127 | Each character's high three bits in order, a zero, and each one's low five bits in order |
| `Bech32m.PublishedAddress` | address/bech32m.go:89-143 | The encoding of version 16 and the bytes 75 1e under BC is the address BIP 350 publishes for them |
| `Bech32m.ValuesInOrder` | address/bech32m.go:89-100 | A character has a value exactly when it is in the alphabet of BIP 173, and then its place there |
| `Bech32m.SplitsAtLastOne` | address/bech32m.go:147-160 | An address of at most 90 characters in one case is decoded in the two parts its last '1' splits it into; no prefix, or fewer than six characters behind it, is an error of the prefix |
| `Bech32m.RejectsExactly` | address/bech32m.go:161-208 | The error of the two parts is that of the first check that fails: the prefix, the alphabet, the checksum, an empty data part, the padding, the version, the 32 bytes |
| `Bech32m.RejectsAtOnce` | address/bech32m.go:147-160 | Before that: more than 90 characters, mixed case, no '1' |
| `Bech32m.LettersPair` | address/bech32m.go:151-155 | The capitals and the small letters, all 26 in order, are lowered and raised to each other |
| `Bech32m.OthersStay` | address/bech32m.go:151-155 | No other character changes with the case |
| `Bech32m.DecodeInvertsEncode` | address/bech32m.go:147-245 | Round trip: for version 1, every 32-byte program and every ASCII prefix of 1 to 30 characters, Decode gives back what Encode was given |
| `Bech32m.AcceptedIsEncoding` | address/bech32m.go:147-245 | Canonicity: an accepted address re-encodes to its own lower case |
| `Bech32m.AcceptsExactly` | address/bech32m.go:147-209 | For every prefix and address: it is accepted as a witness exactly when the prefix has 1 to 30 characters, the witness is of version 1 and 32 bytes, and the address is, up to case, that witness's encoding, written in one case |
| `Wire.ParseInvertsSerialize` | tx/builder.go:346-402 | For every transaction with at least one input and fields within their widths the BIP 144 reader recovers version, outpoints, sequences, outputs, witness stacks and lock time, field by field, with nothing left |
| `Wire.LayoutOf` | tx/builder.go:346-402 | The bytes of a transaction of one input and one output, written out in order |
| `Wire.InputLayout` | tx/builder.go:368-375 | The bytes of an input, each at its place |
| `Wire.OutputLayout` | tx/builder.go:380-385 | The bytes of an output, each at its place |
| `Wire.CountForms` | tx/builder.go:512-526 | The four forms of a count, with their bounds and prefixes |
| `Wire.ReadVarIntBack` | tx/builder.go:512-526 | Every 64-bit count is read back from its variable-length form |
| `Wire.VarIntLength` | tx/builder.go:112-123 | The size function is the length written |
| `TxBuilder.Serialize` | tx/builder.go:346-402 | The loops write the witness form exactly when some input has a witness |
| `TxBuilder.SerializeNoWitness` | tx/builder.go:411-429 | The loops write the stripped form |
| `TxBuilder.EstimateWeight` | tx/builder.go:245-260 | The loops compute the weight from the stripped form and real or future witnesses |
| `TxBuilder.WeightIsExact` | tx/builder.go:245-260 | The estimate before signing equals three times the stripped plus the full length after signing, exactly when there is an input |
| `TxBuilder.SumInputs` | tx/builder.go:134-146 | Succeeds exactly when every value and the total are amounts, with that total, and otherwise gives the error of the first input that spoils the sum; the running sum never passes the ceiling |
| `TxBuilder.BuildSend` | tx/builder.go:798-859 | Succeeds exactly when no refusal applies, with the refusal of the first check that fails; then the transaction is of version 2 and lock time 0, spends exactly the given outpoints in order, their txids in internal order, with final sequences and no witness yet, pays the recipient the amount first, and gives change, if any, to the change script |
| `TxBuilder.SendConserves` | tx/builder.go:798-859 | Inputs equal outputs plus fee; the fee pays the rate for the final signed size, is the measured one when there is change, and stays below the ceiling plus the change floor; every output is an amount at or above its floor; the outpoints, sequences and scripts are the given ones |
| `TxBuilder.SendAccepts` | tx/builder.go:798-859 | Exactly which sends are accepted, with the ceilings on amount, rate and fee and the relay floor as numbers |
| `TxBuilder.SendRefusedFor` | tx/builder.go:798-859 | Each error a send is refused with names something that is wrong with it |
| `TxBuilder.SendReadBack` | tx/builder.go:346-859 | A built send, serialized, is read back by the BIP 144 reader as spending exactly the given outpoints and paying exactly the recipient and the change |
| `TxBuilder.BuildSweep` | tx/builder.go:1048-1093 | Succeeds exactly when no refusal applies; then the transaction is of version 2 and lock time 0, spends exactly the given outpoints in order, and pays the one output everything less the measured fee |
| `TxBuilder.SweepConserves` | tx/builder.go:1048-1093 | Inputs equal the output plus a fee that pays the rate for the signed size and is at most the ceiling; the output is at or above its floor |
| `TxBuilder.SweepAccepts` | tx/builder.go:1048-1093 | Exactly which sweeps are accepted, with the limits as numbers |
| `TxBuilder.SweepRefusedFor` | tx/builder.go:1048-1093 | Each error a sweep is refused with names something that is wrong with it |
| `TxBuilder.SweepReadBack` | tx/builder.go:346-1093 | A built sweep, serialized, is read back as spending exactly the given outpoints and paying the one destination |
| `TxBuilder.DraftSpends` | tx/builder.go:204-227 | A draft spends the given outpoints, one input each, in order, with the bytes of each txid reversed from display order |
| `CoinSelection.Select` | utxo/selector.go:614-677 | Never more than 80 coins, each one given, not taken, of the asset, at an allowed address, deep enough and not below the minimum value; for amounts and a positive target that leaves room for one more amount it succeeds exactly when some choice of at most 80 eligible coins covers the target, no covering choice has fewer, and the running total does not wrap |
| `CoinSelection.EligiblesAre` | utxo/selector.go:614-650 | The eligible coins are, with their multiplicities, exactly the given ones that pass the filters |
| `CoinSelection.LargestAreBest` | utxo/selector.go:650-655 | No choice of as many coins is worth more than the largest |
| `CoinSelection.Accumulate` | utxo/selector.go:657-676 | Takes a prefix of at most 80 coins; under the same conditions it succeeds exactly when some such prefix covers the target, stopping at the first, with an exact total |
| `FeeSelection.SelectForFee` | examples/exchange_split/signer/main.go:349-362 | Ends by returning: the count only grows and the exit behind the loop is unreachable; for an amount and a rate the builder takes it returns a choice exactly when some choice of at most 80 eligible coins pays its own estimated fee, and then one of the fewest coins |
| `FeeSelection.SendSize` | examples/exchange_split/signer/main.go:368-368 | The exact weight of a send with 34-byte scripts; the estimate dominates its size plus margin for every count from 1 to 80 |
| `FeeSelection.SelectionSuffices` | examples/exchange_split/signer/main.go:349-368 | With 34-byte scripts the builder never finds the selected inputs insufficient, at any rate |
| `FeeSelection.CapHolds` | examples/consolidate/main.go:306-317 | At every rate the builder takes, that many inputs stay under the fee cap |
| `FeeSelection.CapIsTight` | examples/consolidate/main.go:306-317 | ... and one more would not, unless it is past the limit of 80 |
| `FeeSelection.SweepIsBuilt` | examples/consolidate/main.go:209-255 | A sweep within the cap that passes the coverage check is never refused for the fee, for funds or for dust |
| `Deposits.Monitor.Scan` | deposit/monitor.go:350-526 | One pass computes the reference pass, credits, final set and bookkeeping alike, however it is cut short |
| `Deposits.Monitor.RecheckPending` | deposit/monitor.go:572-614 | Marks final exactly the pending deposits the node puts at the required depth and past the horizon, up to the first call that fails |
| `Deposits.Monitor.VerifyAndCredit` | deposit/monitor.go:537-564 | Credits exactly when the node agrees on value, script, depth and maturity, and then the listed output's outpoint, address and value at the node's height and depth |
| `Deposits.Monitor.PruneFinal` | deposit/monitor.go:218-226 | Drops exactly the entries of scanned addresses that were not listed, and changes no other |
| `Deposits.FinalIsACache` | deposit/monitor.go:455-466 | A pass answered throughout, with a ledger that lists as pending only what it credited, credits exactly what it would with the set empty, for every set within what the ledger has credited |
| `Deposits.EntriesAreEarned` | deposit/monitor.go:466-493 | Whatever fails in a pass, an outpoint enters the set only when the ledger has it credited, or lists it as pending credit, and the node puts it past the horizon |
| `Deposits.CreditsExactly` | deposit/monitor.go:409-526 | A pass answered throughout credits an outpoint exactly when the ledger lacked it and a fresh, valid address lists it deep enough with the node agreeing on value, script, depth and maturity |
| `Deposits.CreditsAreTold` | deposit/monitor.go:537-564 | However a pass goes, every credit it makes is of an output a fresh, valid address lists, in that address's name, with the value both the cache and the node give, and with the node's height and depth |
| `Deposits.EveryCreditIsTold` | deposit/monitor.go:350-614 | The same of every credit of every run of passes, restarts and ledger changes |
| `Deposits.RecheckExactly` | deposit/monitor.go:572-614 | When every call is answered the recheck makes final exactly the pending deposits at their required depth and more than 288 deep |
| `Deposits.PassCreditsOnce` | deposit/monitor.go:409-526 | However a pass goes, it credits each outpoint the ledger gains once, and nothing the ledger had |
| `Deposits.StaleKeepsEntries` | deposit/monitor.go:215-226 | A skipped stale address loses no entry |
| `Deposits.EveryPassCreditsTheSame` | deposit/monitor.go:350-614 | At any point of any run of passes, restarts and ledger changes that never un-credit an entered outpoint, the same holds of every answered pass |
| `Deposits.NeverCreditedTwice` | deposit/monitor.go:350-614 | No outpoint is credited twice over any run of passes, restarts and ledger changes, but for one the ledger itself has un-credited |
| `SplitSigner.Reconcile` | examples/exchange_split/signer/main.go:234-307 | On success the set is exactly what the passes over the two listings and the lookups prescribe |
| `SplitSigner.Record` | examples/exchange_split/signer/main.go:315-325 | Marks unless the intent holds no reservation and all its inputs are in the set |
| `SplitSigner.SpendExactly` | examples/exchange_split/signer/main.go:315-325 | Entry by entry: nothing is done exactly for an intent without reservations whose inputs all have entries that have not run out; else every input becomes a send of the intent in its transaction, or the one the node named, and nothing else changes; it stops only at another's unconfirmed send |
| `SplitSigner.BuiltExactly` | examples/exchange_split/signer/main.go:245-267 | A Built intent that is held is recorded so; any other has its inputs reserved, and it stops only at another's entry |
| `SplitSigner.SentExactly` | examples/exchange_split/signer/main.go:268-288 | A Broadcast intent is recorded so; for a Confirmed one exactly its inputs are flagged |
| `SplitSigner.AllInSet` | examples/exchange_split/signer/main.go:398-405 | True exactly for a non-empty list of inputs that are all in the set and have not run out |
| `SplitSigner.NoGap` | examples/exchange_split/signer/main.go:234-336 | For every interleaving of the broadcaster's transitions with the readings, each intent Built or Broadcast at the end has all its inputs in the set, given that no two live intents share an input and none of their inputs was under another's reservation |
| `SplitSigner.GapExists` | examples/exchange_split/signer/main.go:315-325 | Without the last condition it is false: a sent intent whose input is under another's reservation is left with nothing |
| `SplitSigner.GapExactly` | examples/exchange_split/signer/main.go:292-325 | For every interleaving, given that no two live intents share an input and reservations lie on their own intents' inputs, an intent Built or Broadcast at the end is left with a gap exactly when it was passed over every time it was looked at and an input was under a reservation whose holder is found with nothing built; one that was reserved for never is |
| `SplitSigner.QuietGapExactly` | examples/exchange_split/signer/main.go:234-336 | With a quiet broadcaster the holder is one with nothing built in the one reading |
| `Amounts.ParseSOQ` | types/amount.go:25-67 | Accepts exactly digits with an optional point and one to eight fraction digits whose value fits in 64 bits, and returns that value |
| `Amounts.ReadWhole` | types/amount.go:36-47 | No intermediate value leaves 64 bits, and a value that would is refused |
| `Amounts.ReadFraction` | types/amount.go:52-62 | Fills the fraction up to eight digits |
| `Amounts.DigitsInOrder` | types/amount.go:36-62 | Each digit counts for its place in 0123456789 |
| `Amounts.PrintedParses` | examples/consolidate/main.go:329-331 | What is printed for any amount is a figure worth that amount |
| `Amounts.PastFloat` | types/amount_test.go:16-25 | A figure that no float64 holds is worth exactly what it says |
| `Amounts.ParsePrinted` | examples/consolidate/main.go:329-331 | Parsing inverts printing on every non-negative 64-bit amount |

## Left out

- AtomicFile.File.WriteFile: the branch for systems without directory sync is not modelled.
- WithdrawalEngine.Engine.Recover: modelled as run at startup, on what a restart finds; the spent set is given exactly for an ended context, where nothing is sent.
- WithdrawalEngine.Engine.Broadcast: LastError texts and the wrapping of returned errors are not modelled.
- WithdrawalEngine.Engine.Submit: the comparison of addresses without regard to case is a given function.
- WithdrawalOwnership.BroadcastDisjoint: for an input taken over from an intent that is Failed as read, a run shows that two Broadcast intents can come to share it; that they can from every such takeover is not claimed.
- Interference inside one call: the engine holds its lock throughout Build, Broadcast, UpdateConfirmations, Rebroadcast and Abandon, so its methods are modelled as running alone.
- WithdrawalEngine.Engine.Abandon: an engine without a chain to ask is left out; its two clock readings are one, as are the two of one save elsewhere.
- SpentStore.Store.Owners: the ids come in any order, not sorted.
- IntentStore.FileStore.List: records come in any order, not by creation time.
- Process, the in-memory store and the in-memory spent set.
- ElectrumClient.Client.CommitRefresh: what the cache shows is stated for replies that list each outpoint once.
- Freshness.CleanIsFresh: one address of a fixed tracked set, statuses unique to versions, and no eviction from the cache; ticket, sequence reading and send are one step.
- Refresher.Loop.Run: nothing is claimed once the context has ended or Stop was called, and panic recovery is not modelled; the refresher is the only caller of refresh.
- Dialling, TLS, JSON, the parsing and bounds of listunspent entries, headers and tips.
- Bech32m.Decode: strings are ASCII; for other text Go's case mapping changes lengths and letters.
- TxBuilder.BuildSend: txids are given as the bytes their hex stands for; network and script derivation of the inputs are one given answer; sizes and the product of size and rate are mathematical integers, which differ from 64-bit ones only for transactions of more than 9e13 bytes or for rates that are refused anyway.
- TxBuilder.BuildSweep: as TxBuilder.BuildSend.
- CoinSelection.Select: which outputs are taken is given as a set; the order of equal values is not fixed.
- Signing, hashing, sighashes, keys, the USDSOQ builders and transaction verification.
- Deposits.Monitor.Scan: the checks before a pass (sync, chain, a cache without per-address freshness) are left out, alerts are not recorded, and a pass reads the clock once.
- Deposits.StaleKeepsEntries: a pending record that names the outpoint under another address is excluded.
- The circuit breaker, the reconciler, the watcher and broadcaster programs, command lines, logging and webhooks.

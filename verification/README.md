# A verified model of rstr's transfer protocol

rstr moves a file from a Sender to a Receiver through a relaying server. The Sender cuts the file into hashed chunks and
publishes their metadata on the server. The Receiver fetches the metadata, asks for one chunk after the other, writes the
blocks that arrive to a local file, checks each finished chunk against its hash and records it, so that an interrupted
download goes on where it stopped. This project models the four parties to that (the chunker, the Sender's transmit loop,
the Receiver, the server) with the queues between them, and proves what rstr promises: a finished file is the file, the
pieces in flight are always exactly the missing pieces, every download ends, and metadata arrives.

`dafny verify dfyconfig.toml` checks everything.

## How it is laid out

The program's objects are classes with the program's fields (`MetaIndex`, `Receiver`, `Server`, `BinaryWriter`,
`BinaryReader`), and its loops are loops (`CreateForFile`, `Transmit`, `ConvertIndex`, the server's event loop). Each method
is proved to do exactly what a function on values says; invariants and runs are then stated about these functions.

| files | what they hold |
|---|---|
| `Base`, `Metadata`, `Messages` | bytes, machine integers, chunks and entries, message types |
| `Chunker` | metadata creation |
| `EntryList`, `MetaIndex` | the metadata index: its operations on the list, the map it stands for, the class |
| `ReceiverModel`, `ReceiverSafety`, `ReceiverProgress`, `ReceiverPrefix`, `ReceiverIntegrity` | the Receiver's operations on values, and what every run of it keeps |
| `ReceiverLaws` | what the Receiver answers and tells at every step: each error, each event, the status shown to the user |
| `SharedPath`, `WholeHash` | two ways in which a finished file can be wrong or go unchecked |
| `ReceiverClient` | the Receiver as an object |
| `Sender` | chunk requests and the transmit loop |
| `ServerModel`, `ServerSafety`, `ServerRelay`, `ServerProcess` | the server: handlers on values, role safety and status, relaying, the object with its event loop |
| `ServerLaws` | what every input does to every client: who is there, with which role, what it is sent, who is cut off; leaving, tokens, restart |
| `Pipeline`, `PipelineFlow`, `TransferEnds`, `TransferExact` | Receiver, server, Sender and queues together, with downloads, publications and metadata traffic in any interleaving: conservation of the bytes, termination, delivery of a requested file |
| `StopAndResume` | a stop, with the cancellation of the transmission, and going on after it |
| `FirstDownload` | histories from the first start of everything: to a file, and to a stalled download |
| `Sync`, `SyncSteps`, `SyncJoint`, `SyncReplies` | incremental metadata synchronisation, that the two programs' steps are its steps, that the whole system's runs are its runs, and what a reply is worth |
| `Paths` | path splitting, normalising, the file list |
| `Codec`, `CodecStreams` | the binary format, its writer and reader |

## How things are modelled

- The hash function is a parameter `digest: Bytes -> u64`; a streaming hasher is the bytes fed to it. No injectivity is
  assumed (a 64-bit hash has none). Where content equality depends on the hash, the hypothesis `NoCollision` says of the
  one block that completes a chunk that it does not complete a collision. `ReceiverPrefix` needs no such hypothesis. In
  the whole system it follows from `Pipeline.Clear`, which speaks only of files that the Sender makes under one remote
  path, one after the other: where their chunks have the same digest, they have the same bytes. If no path is made anew,
  nothing is assumed of the digest.
- A local file is a byte sequence with `set_len` and write-at-offset; a write can fail before opening, before resizing, or
  later with any part of the block on disk (`WriteFate`). Saving the index is one step that succeeds.
- A local path is a string and names one file: two spellings of the path of one file ("x" and "./x") are two files here,
  and one on disk. The guard `InUse` of downloads compares these strings.
- A channel is everything ever put into it; sends fail once the connection behind it has ended.
- `u32` is modelled with its wrap-around (`AsU32`): the chunk size cast, the transmit loop's count, the length prefixes.
- Clocks, arriving blocks, write failures and the users' wishes are parameters, universally quantified.

## Where the code does less than one might hope

The model follows the code. Each of these has a lemma.

- An empty file has no chunks, so it can never be downloaded (`ReceiverProgress.EmptyFileNeverFinishes`).
- A download may be started into a local file where chunks of another file are, and then can damage them: exactly then
  (`SharedPath.RequestDamagesIff`, `SharedPath.ResumeDamagesIff`). A file can then be reported finished with wrong bytes,
  although every chunk hash was right (`SharedPath.SharedPathBreaksIntegrity`). Integrity asks for this guard.
- The hash of the whole file is never checked: nothing that the Receiver says or stores depends on it
  (`WholeHash.WholeHashUnchecked`, `WholeHash.WrongHashFinishes`).
- A file that the Sender makes anew under a remote path, with another hash for the chunk that the Receiver asks for next,
  stalls its download: the Sender refuses the request and the Receiver is not told (`TransferEnds.StallsIff`,
  `TransferEnds.DownloadStallsIff`, and `FirstDownload.FileStalls` for a history).
- New metadata for a path discards its download progress, and the stamp that update notices are compared with is fixed
  when the program starts; a notice that arrives during a download is refused and not remembered
  (`ReceiverProgress.ResetLosesAll`, `ReceiverProgress.NoticeAsksFromTheStart`). So an idle Receiver can lack published
  files; `Sync.AgreesIff` says exactly when it does not.
- Of two files published under one stamp the second may never arrive (`Sync.DeliveredIff`, `Sync.SameStampNeverSent`); withdrawals never do
  (`Sync.WithdrawalNeverArrives`).
- The transmit loop's 32-bit count wraps for chunks above 2^32 - 65536 bytes (`Sender.ExactUpToSafeSize`); the chunker's
  are far smaller.
- A publication that meets a Receiver whose connection has just ended panics the event loop (`ServerRelay.PanicsIff`).
- Two kinds of event change the Sender's presence without the Receiver being told (`ServerSafety.StepStatus`).
- Several files uploaded to the root get remote paths with a leading separator, which are not normalised and are listed
  like the plain name (`Paths.UploadPathIff`).
- The size given for an array leaves out its length prefix (`Codec.WrittenSize`); the functions named `le` write the most
  significant byte first (`CodecStreams.Digits4`, `CodecStreams.Digits8`).

## Model

| member | source | states |
|---|---|---|
| Chunker.CreateForFile | rstr_core/src/meta.rs:198-302 | however the file is split into blocks, the metadata describes it: chunks start at 0, abut, are nonempty, cover it, and each hash and the file hash are those of exactly their bytes; every chunk but the last holds 16 MiB up to less than 16 MiB + 64 KiB, so the 32-bit size never truncates |
| Chunker.Extend | rstr_core/src/meta.rs:270-277 | cutting one more chunk from the pending bytes keeps the chunks contiguous and rightly hashed |
| Chunker.Absorb | rstr_core/src/meta.rs:248-256 | reading one more block leaves every chunk cut so far right for the longer content |
| Metadata.EdgesAscend | rstr_core/src/meta.rs:270-277 | contiguous chunks start at strictly increasing offsets |
| Metadata.SegmentSize | rstr_client/src/client.rs:487-497 | the sizes of the first k chunks add up to the offset of the next one |
| EntryList.RunRefines | rstr_core/src/meta.rs:129-196 | every sequence of the five operations add, add for metadata, remove, mark received and change local path keeps paths unique and acts on the list exactly as on a map from path to entry (renaming is a matter of RenameKeepsUniqueIff) |
| EntryList.OpRefines | rstr_core/src/meta.rs:129-196 | the same for each single one of the five |
| EntryList.FindEntryRefines | rstr_core/src/meta.rs:121-127 | searching the list is looking the path up in the map |
| EntryList.ModifiedAfterRefines | rstr_core/src/meta.rs:116-118 | the incremental query yields exactly the map's entries with a newer stamp, each path once |
| EntryList.LastUpdatedRefines | rstr_core/src/meta.rs:109-114 | the newest stamp is attained and not exceeded by any entry of the map, and the least value for none |
| EntryList.RenameKeepsUniqueIff | rstr_core/src/meta.rs:150-156 | a rename keeps paths unique if and only if the new path is free, or it renames nothing or to the same path |
| EntryList.RenameRefines | rstr_core/src/meta.rs:150-156 | a rename to a free path moves the entry there, changes nothing of it but the path, and leaves all others alone |
| EntryList.Outcomes | rstr_core/src/meta.rs:129-156 | marking, moving and renaming fail exactly for an unknown path or chunk, and then change nothing |
| EntryList.AddKeepsPlaces | rstr_core/src/meta.rs:167-186 | adding replaces in place, or comes last; the order of the others stays |
| EntryList.RemoveKeepsPlaces | rstr_core/src/meta.rs:158-165 | removing keeps the order of the rest |
| EntryList.ModifiedAfterConcat | rstr_core/src/meta.rs:116-118 | the incremental query keeps the order of the list |
| EntryList.ReplaceFind | rstr_core/src/meta.rs:141-148 | changing one entry in place is seen under its path only |
| MetaIndexes.MetaIndex.AddEntry | rstr_core/src/meta.rs:167-186 | the loop replaces the first entry at the path, or appends |
| MetaIndexes.MetaIndex.AddForMeta | rstr_core/src/meta.rs:188-196 | the entry becomes a fresh one: no local path, nothing received |
| MetaIndexes.MetaIndex.Remove | rstr_core/src/meta.rs:158-165 | the loop removes the first entry at the path and keeps the rest in order |
| ReceiverClient.Receiver.constructor | rstr_client/src/client.rs:137-155 | field by field: the saved index, its newest stamp as the last known update, the files as they are, Initializing, nothing requested |
| ReceiverClient.Receiver.RequestMeta | rstr_client/src/client.rs:180-188 | asks for newer metadata only when idle, with the new state and messages of the model |
| ReceiverClient.Receiver.RequestNewMeta | rstr_client/src/client.rs:176-178 | asks with the newest stamp of the index |
| ReceiverClient.Receiver.RequestFile | rstr_client/src/client.rs:190-205 | refines the model's operation, error paths included, and keeps the invariant |
| ReceiverClient.Receiver.ResumeFile | rstr_client/src/client.rs:207-223 | refines the model's operation, error paths included, and keeps the invariant |
| ReceiverClient.Receiver.RequestChunk | rstr_client/src/client.rs:225-247 | the request sent and the counters set up are those of the model |
| ReceiverClient.Receiver.StopTransmission | rstr_client/src/client.rs:249-258 | tells the Sender to stop and leaves the pending request in place, and keeps the invariant |
| ReceiverClient.Receiver.ProcessMessage | rstr_client/src/client.rs:260-292 | every message in every state has the model's outcome, and keeps the invariant |
| ReceiverClient.Receiver.ProcessNotifyUpdated | rstr_client/src/client.rs:294-300 | asks again, with the stamp known at the start, exactly when the notice is newer than it |
| ReceiverClient.Receiver.ProcessTransmitMeta | rstr_client/src/client.rs:302-317 | the loop folds in all metadata of the reply, in order, and the index is saved |
| ReceiverClient.Receiver.WriteBlock | rstr_client/src/client.rs:349-376 | the disk after a write of any fate, and whether it succeeded |
| ReceiverClient.Receiver.ProcessTransmitChunk | rstr_client/src/client.rs:319-429 | a block has exactly the model's effect on file, counters, index and state, for every fate of its write |
| ReceiverClient.Receiver.CheckChunk | rstr_client/src/client.rs:392-405 | a chunk is accepted only when all its bytes were counted and their digest is its hash |
| ReceiverClient.Receiver.FinishChunk | rstr_client/src/client.rs:407-428 | records the chunk, saves, and requests the first missing one or reports the file finished |
| ReceiverClient.Receiver.CalculateDownloaded | rstr_client/src/client.rs:487-497 | the sum over the received set, in any order of iteration |
| ReceiverClient.Receiver.FindFirstUndownloaded | rstr_client/src/client.rs:499-510 | the first chunk not received, or none when there is no such chunk |
| ReceiverSafety.RunSound | rstr_client/src/client.rs:190-429 | over every run with any messages, stops, failed writes and restarts: received chunks are the first k, the requested chunk is k, the offset is its offset plus the bytes hashed, the saved index is the one in use |
| ReceiverSafety.StepSound | rstr_client/src/client.rs:190-429 | every step keeps this, and no `unwrap` on the index ever fails |
| ReceiverSafety.SegmentNext | rstr_client/src/client.rs:499-510 | the search finds the next chunk exactly while one is missing |
| ReceiverSafety.CompleteChunkShape | rstr_client/src/client.rs:407-426 | completing a chunk adds it to its own entry only, then requests chunk k + 1 with its hash and an empty hasher, or reports the file finished |
| ReceiverSafety.CountersAgree | rstr_client/src/client.rs:233-242 | for contiguous metadata the sum over received chunks plus the bytes written since equals the file offset |
| ReceiverLaws.BlockLaw | rstr_client/src/client.rs:319-405 | for every block and write: IOError exactly when the write fails; InvalidHash with both digests exactly when the block is written, reaches the chunk's end and the digest is wrong; then, and before the end, it is counted in, nothing is recorded or told, and the state stays |
| ReceiverLaws.RefusalLaw | rstr_client/src/client.rs:260-290 | WrongState exactly for an action that its state does not expect, or a newer notice before the login is answered; nothing changes and nothing is sent |
| ReceiverLaws.MessageErrors | rstr_client/src/client.rs:260-292 | exactly when a message ends in NotSupported, IOError or InvalidHash, and that it never ends in any other error but WrongState |
| ReceiverLaws.RequestLaw | rstr_client/src/client.rs:190-205 | an idle request: the error for an unknown file and for one without chunks, and otherwise the file's new place, the request for its first chunk, and the path and size that the user is told |
| ReceiverLaws.ResumeLaw | rstr_client/src/client.rs:207-223 | an idle resume: its errors, and otherwise the request for the chunk after those received, the bytes counted so far, and what the user is told |
| ReceiverLaws.OwnLaw | rstr_client/src/client.rs:137-188 | what a stop, a request for news and a restart send, tell and leave |
| ReceiverLaws.ShownLaw | rstr_client/src/client.rs:266-287 | a welcome, a reply and each of the two statuses show exactly their event |
| ReceiverLaws.RunShows | rstr_client/src/client.rs:282-287 | over every run the user is shown the last status that has arrived |
| ReceiverLaws.StatusReachesUser | rstr_client/src/client.rs:282-287 | after any announced run of the server, a connected Receiver that was delivered what was sent to it shows the Sender connected if and only if one is logged in |
| ReceiverIntegrity.EndToEnd | rstr_client/src/client.rs:319-429 | whatever came before (any split, stale or wrong data, torn writes, stops, resumes, restarts): when a file is reported finished the local file equals the content its metadata describes, length included |
| ReceiverIntegrity.DownloadedIsExact | rstr_client/src/client.rs:453-462 | in any trusted state an entry shown as downloaded is stored exactly |
| ReceiverIntegrity.StepTrusted | rstr_client/src/client.rs:190-429 | every allowed step keeps verified prefixes on disk and the hashed bytes of the current chunk in the file |
| ReceiverIntegrity.RunTrusted | rstr_client/src/client.rs:190-429 | the same over every allowed run |
| ReceiverPrefix.ReceivedBytesAreSafe | rstr_client/src/client.rs:319-429 | with no hypothesis on hashes, over every run without a reset of the file: whatever blocks arrive and however their writes end, no byte of its received chunks ever changes |
| ReceiverPrefix.StepSteady | rstr_client/src/client.rs:190-429 | every step, on any messages, keeps the hashed bytes of the current chunk in the file where they belong, and every file as long as its received chunks |
| ReceiverPrefix.RunSteady | rstr_client/src/client.rs:190-429 | the same over every run |
| ReceiverPrefix.StepKeepsPrefix | rstr_client/src/client.rs:349-376 | no single step changes a byte of a received chunk of any entry |
| ReceiverPrefix.FileAfterKeeps | rstr_client/src/client.rs:356-367 | no write of any fate changes bytes before its offset |
| ReceiverPrefix.WrittenBytes | rstr_client/src/client.rs:350-367 | the length and every byte of a file after a block was written in whole or in part, zeros in gaps included |
| ReceiverPrefix.FailedWrites | rstr_client/src/client.rs:350-356 | what writes that fail before the block leave |
| ReceiverPrefix.BlockStoresFed | rstr_client/src/client.rs:343-387 | the bytes fed to the hasher since the request are those in the file, block by block |
| ReceiverIntegrity.ChunkCompletes | rstr_client/src/client.rs:392-407 | a chunk that ends with the right bytes ends exactly at its edge and lengthens the verified prefix by itself |
| ReceiverIntegrity.FinishedIsComplete | rstr_client/src/client.rs:414-426 | only a block can finish a file, and then no chunk is missing |
| ReceiverIntegrity.CountersAtCompletion | rstr_client/src/client.rs:385-386 | at completion both byte counters equal the file's size |
| SharedPath.RequestDamagesIff | rstr_client/src/client.rs:190-205 | some block of a requested download can destroy another entry's verified bytes if and only if received chunks of another entry are stored under the chosen name |
| SharedPath.ResumeDamagesIff | rstr_client/src/client.rs:207-223 | the same for a download that is resumed |
| SharedPath.SharedPathBreaksIntegrity | rstr_client/src/client.rs:190-205 | a history from the first start in which every step but one request satisfies the hypotheses of integrity, and which ends with a file reported finished with a byte of another, and with another whole-file hash than its metadata's |
| WholeHash.WholeHashUnchecked | rstr_client/src/client.rs:401-426 | after any history, with the whole-file hash of every metadata replaced by anything, every step has the same messages and verdict and leaves the same files |
| WholeHash.StepForged | rstr_client/src/client.rs:170-429 | one step on such metadata is the same step |
| WholeHash.WrongHashFinishes | rstr_client/src/client.rs:401-426 | a reachable report of a finished file for every whole-file hash in its metadata |
| ReceiverProgress.StepProgress | rstr_client/src/client.rs:401-426 | a step that resets nothing gains one chunk exactly when it verifies one, and reports the file exactly with the last |
| ReceiverProgress.ResetLosesAll | rstr_core/src/meta.rs:141-148 | a request for the file, or metadata for it, loses all its received chunks |
| ReceiverProgress.AddAllFind | rstr_client/src/client.rs:302-309 | after a reply a path has the fresh entry of some metadata in it for that path, or its old entry if there is none |
| ReceiverProgress.RunProgress | rstr_client/src/client.rs:207-247 | without resets, chunks received are those at the start plus one for each verification |
| ReceiverProgress.FinishesAfterAllVerified | rstr_client/src/client.rs:401-426 | a step reports the file finished if and only if it is the verification of the last of the chunks missing at the start, across stops, failures, restarts and resumes |
| ReceiverProgress.EmptyFileNeverFinishes | rstr_client/src/client.rs:225-227 | a request fails for want of a chunk if and only if the file has none, which for contiguous chunks means that it is empty |
| ReceiverProgress.NoticeAsksFromTheStart | rstr_client/src/client.rs:260-300 | after any run without a restart a notice asks, with the stamp known at the start, if and only if it is newer and the Receiver idle; exactly when it is refused; and it never changes the Receiver |
| Sender.Transmit | rstr_client/src/client.rs:803-827 | for any sizes of the reads the loop ends, the chunk's bytes come first, and up to the safe size nothing else is sent; no block exceeds the buffer; up to the safe size an empty block is sent exactly when the file ends before the chunk, and always last and once |
| Sender.ExactUpToSafeSize | rstr_client/src/client.rs:807-827 | the loop is exact for all files and all schedules of reads if and only if the chunk size is at most 2^32 - 65536 |
| Sender.ScheduleSending | rstr_client/src/client.rs:809-827 | along every schedule of reads the bytes sent are the bytes read cut off at the chunk, or the count has wrapped after the whole chunk was sent |
| Sender.Overrun | rstr_client/src/client.rs:813-822 | for every larger size there is a schedule of reads that sends one byte too many |
| Sender.RequestLaw | rstr_client/src/client.rs:767-786 | a request is met if and only if file, chunk and hash are known; otherwise the first that fails is the error, a wrong hash named with the right one |
| ServerProcess.Server.constructor | rstr_server/src/server.rs:70-98 | field by field: the saved index, both tokens in their places, no clients, running; a safe state |
| ServerProcess.Server.GetByType | rstr_server/src/server.rs:459-479 | the search in any order of the map finds the one client with the role, if there is one |
| ServerProcess.Server.SendToType | rstr_server/src/server.rs:280-287 | refines the model: appended to that client's channel, or the error |
| ServerProcess.Server.HandleLogin | rstr_server/src/server.rs:310-364 | refines the model: role, tokens, occupancy, welcome and status notices in the program's order |
| ServerProcess.Server.HandlePublishMeta | rstr_server/src/server.rs:366-393 | refines the model: stamped, saved, the Receiver notified, the panic of a failed notice |
| ServerProcess.Server.HandleMessage | rstr_server/src/server.rs:289-308 | every message from every client has the model's outcome |
| ServerProcess.Server.HandleInput | rstr_server/src/server.rs:107-157 | connections, messages, failures and departures change the state as the model says |
| ServerProcess.Server.HandleClients | rstr_server/src/server.rs:100-159 | the event loop computes the model's run and keeps the safe state |
| ServerSafety.RunSafe | rstr_server/src/server.rs:100-159 | over every run clients stay keyed by their address, at most one Receiver and one Sender exist, nothing was ever queued to an unidentified client, the saved index is the one in use |
| ServerSafety.StepSafe | rstr_server/src/server.rs:107-156 | every input keeps this |
| ServerSafety.StepStatus | rstr_server/src/server.rs:137-156 | the last status told to a connected Receiver stays true after a step if and only if the step is not one of two unannounced events |
| ServerSafety.RunStatus | rstr_server/src/server.rs:280-364 | over every run without those, a connected Receiver was last told Connected exactly when a Sender is logged in |
| ServerRelay.BlocksRelayed | rstr_server/src/server.rs:431-446 | while a Receiver stays, the blocks queued to it are exactly those Senders submit, in order |
| ServerRelay.CommandsRelayed | rstr_server/src/server.rs:419-457 | while a Sender stays, the requests and stops queued to it are those of Receivers, in order, and the server's own stops |
| ServerRelay.StepRelay | rstr_server/src/server.rs:100-159 | one input adds exactly its block or command and nothing else of either kind |
| ServerRelay.PanicsIff | rstr_server/src/server.rs:385-390 | the loop dies if and only if metadata is published while a logged-in Receiver's connection has ended |
| ServerLaws.StepKeys | rstr_server/src/server.rs:107-156 | one who connects is there, one who leaves is gone, nobody else comes or goes |
| ServerLaws.StepRecord | rstr_server/src/server.rs:107-156 | a client that stays keeps address and role, but for an accepted login of its own: unidentified, with the role's token, the role not taken |
| ServerLaws.StepSends | rstr_server/src/server.rs:280-457 | every client is sent exactly what is due to it for the input, in order, as long as its connection lives |
| ServerLaws.StepCuts | rstr_server/src/server.rs:129-135 | a client is cut off exactly for an offence of its own, for every kind of message |
| ServerLaws.LoginVerdict | rstr_server/src/server.rs:310-341 | when a login ends in success and in which error |
| ServerLaws.StepTokens | rstr_server/src/server.rs:77-96 | tokens never change; a dead server does nothing |
| ServerLaws.StepIndex | rstr_server/src/server.rs:366-404 | the index changes by the Sender's publications, restamped, and withdrawals only, and is saved each time |
| ServerLaws.NobodyWithoutToken | rstr_server/src/server.rs:310-339 | over every run of a started server, whoever is Receiver or Sender has presented the token configured for that role |
| ServerLaws.RoleFreed | rstr_server/src/server.rs:137-156 | after the holder of a role has left, whoever connects and presents the right token gets it and is welcome |
| ServerLaws.Started | rstr_server/src/server.rs:75-95 | a started server holds what was saved and the tokens it was given, and nobody is there |
| ServerLaws.RestartAnswers | rstr_server/src/server.rs:70-98 | after a restart a Receiver's request for metadata is answered with what the server held before, for every stamp |
| PipelineFlow.RunFlow | rstr_client/src/client.rs:378-426 | over every interleaving of downloads, publications, withdrawals, notices, metadata requests and replies: bytes hashed, bytes in both queues and bytes unread make up the requested chunk in order, or its one request is on its way and no data is anywhere, or the Sender has refused it; when idle no queue holds a byte |
| PipelineFlow.StepFlow | rstr_client/src/client.rs:767-839 | every step of Receiver, server, Sender, users, connections and other clients keeps this |
| PipelineFlow.DeliveriesSucceed | rstr_client/src/client.rs:260-292 | on such runs no delivered block ever fails, in particular no hash is ever wrong; any other message fails at most as not expected in the state |
| PipelineFlow.BlockFlow | rstr_client/src/client.rs:378-426 | a delivered block keeps the bytes together, whether it completes the chunk or not |
| PipelineFlow.RequestArrives | rstr_client/src/client.rs:767-786 | a request that arrives starts a transmission of exactly the requested bytes, or is refused, and refused exactly when the library lacks the chunk with that hash |
| PipelineFlow.ReadConserves | rstr_client/src/client.rs:809-827 | a read moves its bytes from the unread to the sent, trimmed at the end of the chunk |
| PipelineFlow.LoginsAccepted | rstr_server/src/server.rs:310-364 | two clients logging in on a new server with the right tokens are Receiver and Sender, and the Receiver is told of the Sender |
| PipelineFlow.FlowBegins | rstr_server/src/server.rs:107-136 | a Receiver that has just started on such a server, with whatever index was saved, is in the flow |
| Pipeline.ServeRequest | rstr_server/src/server.rs:406-429 | relaying a chunk request changes the Sender's channel only, answering a metadata request the Receiver's only |
| Pipeline.ServeOffer | rstr_server/src/server.rs:366-446 | a block, publication or withdrawal changes the Receiver's channel and the index as it should, and nothing else |
| Pipeline.ChunkedIsSourced | rstr_core/src/meta.rs:198-302 | what the chunker makes of a file of the Sender satisfies all that is asked of an entry |
| Pipeline.ServeOther | rstr_server/src/server.rs:310-364 | whatever other clients do leaves both channels and the index as they are |
| TransferEnds.MachineWorks | rstr_client/src/client.rs:767-839 | every step of the machinery (serving, delivering, reading) leaves strictly less to do |
| TransferEnds.RunSettles | rstr_client/src/client.rs:319-429 | over every run the machinery takes at most as many steps as there was to do, plus four for each publication, withdrawal and metadata request; at rest no download is under way, unless refused |
| TransferEnds.ComesToRest | rstr_client/src/client.rs:319-429 | from every state in flow some run of the machinery alone reaches rest |
| TransferEnds.HopelessStalls | rstr_client/src/client.rs:767-780 | a request on its way for a chunk that is not offered is brought to a stall by the machinery alone |
| TransferEnds.StallsIff | rstr_client/src/client.rs:767-780 | the arrival of a request stalls the download if and only if the library has no such chunk or one with another hash |
| TransferEnds.StallOnlyThere | rstr_client/src/client.rs:319-429 | no other step stalls a download, and nothing changes a stalled one |
| TransferEnds.DownloadStallsIff | rstr_client/src/client.rs:767-780 | over every run a download stalls if and only if some request was refused on the way |
| TransferExact.RequestDelivers | rstr_client/src/client.rs:190-247 | the user asks for a nonempty file: at rest, the file under the chosen name is the Sender's, byte for byte, or else a request was refused and the download is stalled |
| TransferExact.TransferDelivers | rstr_client/src/client.rs:319-429 | the same for a download that is under way |
| TransferExact.OfferedNeverRefused | rstr_client/src/client.rs:767-780 | as long as the library has every chunk under its hash, whatever else is published, no request is refused |
| TransferExact.DownloadsMatch | rstr_client/src/client.rs:319-429 | at any point of any run, every completely received file equals the one its metadata was made from |
| TransferExact.StepFaithful | rstr_client/src/client.rs:190-429 | every step keeps the Receiver's files what its index says of them |
| TransferExact.BlockHonest | rstr_client/src/client.rs:378-405 | no delivered block completes a hash collision |
| TransferExact.DownloadsMatchFromStart | rstr_client/src/client.rs:319-429 | the same as DownloadsMatch from the Receiver's first start, on a new server with whatever index was saved |
| TransferExact.RequestCanDeliver | rstr_client/src/client.rs:190-247 | a nonempty file that the Sender offers can be had: after a request the machinery alone brings it |
| FirstDownload.Begins | rstr_server/src/server.rs:107-136 | a server and two programs all started for the first time begin such a history |
| FirstDownload.Knows | rstr_client/src/client.rs:294-317 | from there the Receiver can come to know any file that the Sender has, idle and with empty queues |
| FirstDownload.FileArrives | rstr_client/src/client.rs:319-429 | from there, for every nonempty file of the Sender and every name, some history ends with the file under that name, byte for byte |
| FirstDownload.FileStalls | rstr_client/src/client.rs:767-780 | from there, if the Sender makes the file anew with another first chunk before it is asked for, some history ends with the download stalled |
| StopAndResume.StopSettles | rstr_client/src/client.rs:249-258 | after a stop, whatever still arrives and whenever, if ever, the cancellation takes effect, the Receiver's files stay as they are, and at rest nothing is in flight, no transmission is under way and the Receiver is idle |
| StopAndResume.DrainsToRest | rstr_client/src/client.rs:703-716 | and rest is reached by the machinery alone |
| StopAndResume.MoveWorks | rstr_client/src/client.rs:790-836 | after a stop every step of the machinery, and the end of a cancelled transmission, leaves strictly less to do |
| StopAndResume.MoveDrains | rstr_client/src/client.rs:260-292 | every step keeps the invariant behind it: kinds of messages, at most one request or transmission left, the Receiver idle and sound |
| StopAndResume.ResumeDelivers | rstr_client/src/client.rs:207-223 | a resumed download delivers the file, or a request was refused and it is stalled |
| StopAndResume.StopThenResume | rstr_client/src/client.rs:207-258 | stop, rest, resume, rest: then the file is there, byte for byte, or a request was refused |
| Sync.Converges | rstr_client/src/client.rs:294-317 | after any run with increasing stamps the Receiver has everything the server holds up to the newest stamp it knows, and the next reply makes it agree with all the server held when replying |
| Sync.RunSynced | rstr_server/src/server.rs:366-417 | the invariant behind it, with requests and replies in flight, over every run |
| Sync.AgreesIff | rstr_core/src/meta.rs:109-118 | the Receiver agrees with everything on the server if and only if the server's newest stamp is not newer than its own |
| SyncJoint.SystemConverges | rstr_client/src/client.rs:294-317 | after any run of the whole system from a first start, with increasing stamps, the Receiver has everything on the server up to its newest stamp, and agrees with all of it if and only if the server's newest stamp is not newer |
| SyncReplies.ReplyAgrees | rstr_server/src/server.rs:406-417 | in such a run a reply that reaches an idle Receiver was made at some step, found by the reply's place in the channel, and makes the Receiver agree with the index that the server had at that step |
| SyncReplies.FindAnswer | rstr_server/src/server.rs:406-417 | every reply that is next for delivery was put there by a step at which the server answered |
| SyncReplies.RunReplied | rstr_client/src/client.rs:302-317 | over the run to its delivery a reply keeps what the server held when it answered |
| SyncJoint.StepCoupled | rstr_server/src/server.rs:366-417 | every step of the whole system is a step of the synchronisation system, or nothing to it, with the same requests and replies on their way |
| SyncJoint.FreshBegins | rstr_server/src/server.rs:107-136 | two programs started for the first time are such a beginning |
| Sync.FoldAgrees | rstr_client/src/client.rs:302-309 | a Receiver complete up to the stamp it asked with agrees, after folding in the reply, with the server's index at the time |
| Sync.DeliveredIff | rstr_core/src/meta.rs:116-118 | a path agrees after the reply if and only if it is stamped after the stamp asked with or agreed before |
| Sync.SameStampNeverSent | rstr_core/src/meta.rs:116-118 | an unknown file stamped like the newest known one is in no reply to a request for news |
| Sync.WithdrawalNeverArrives | rstr_server/src/server.rs:395-417 | a path the server does not hold is left as it was by every reply |
| SyncSteps.ServerStepSyncs | rstr_server/src/server.rs:366-417 | every input to the server acts on its index, and answers the Receiver, as a step of the synchronisation system or not at all |
| SyncSteps.ReceiverStepSyncs | rstr_client/src/client.rs:176-317 | every step of the Receiver changes its metadata and sends requests for more as a step of the synchronisation system or not at all |
| Paths.JoinOfSplit | rstr_client/src/client.rs:841-846 | joining a split path gives it back, and no part holds a separator |
| Paths.SplitOfJoin | rstr_client/src/client.rs:841-846 | splitting joined parts gives them back |
| Paths.NormalizeSettles | rstr_client/src/client.rs:841-846 | a normalised path has no blank part and normalising it again changes nothing |
| Paths.NormalizeKeeps | rstr_client/src/client.rs:841-846 | normalising keeps every part that is not blank, in order, with one separator between two |
| Paths.PathOfParts | rstr_client/src/client.rs:440-451 | directory and name give the path back if and only if it is not a name behind one leading separator |
| Paths.LastSeparator | rstr_client/src/client.rs:440-451 | the name is what follows the last separator, the directory what precedes it |
| Paths.ListingInjective | rstr_client/src/client.rs:440-451 | normalised paths with the same directory and name are equal |
| Paths.UploadPathIff | rstr_client/src/client.rs:624-646 | a file of a multiple upload is found under its directory if and only if that is not the root; at the root it is listed as the plain name |
| Paths.Pigeonhole | rstr_client/src/client.rs:453-454 | indices below n are at most n, and n only if all are there |
| Paths.CountAgreesWithSearch | rstr_client/src/client.rs:453-510 | the count of missing chunks cannot underflow, and is 0 if and only if the search finds none missing |
| Paths.SoundInRange | rstr_client/src/client.rs:453-462 | in every Receiver that a run reaches the file list can be made: no count underflows |
| Paths.ListEntry | rstr_client/src/client.rs:437-472 | a row's name and directory are its path's, its status says not begun exactly when nothing is received, and downloaded exactly when something is and nothing is missing |
| Paths.ConvertIndex | rstr_client/src/client.rs:431-476 | one row per entry in order; the directories are the root and those of the rows, no more and no fewer |
| Codec.IntegersRoundTrip | rstr_core/src/binary/reader.rs:30-64 | the four integer types come back from what was written for them, with what follows untouched |
| Codec.TwosComplement | rstr_core/src/binary/writer.rs:45-66 | signed numbers are written as their two's complement |
| Codec.StringRoundTripIff | rstr_core/src/binary/serialization.rs:82-100 | a string comes back, whatever follows, if and only if its length is below 2^32 |
| Codec.StringLayout | rstr_core/src/binary/serialization.rs:82-100 | the length in four bytes, most significant first, and then the bytes as they are |
| Codec.TooFew | rstr_core/src/binary/reader.rs:21-71 | reading a number or string fails exactly when there are too few bytes |
| Codec.ArrayRoundTripIff | rstr_core/src/binary/reader.rs:79-89 | an array of elements that come back comes back if and only if its length is below 2^32 |
| Codec.ElementsBack | rstr_core/src/binary/reader.rs:84-86 | elements written one after the other are read back one after the other |
| Codec.ElementsConcat | rstr_core/src/binary/writer.rs:68-77 | elements are written one after the other, in order |
| Codec.WrittenSize | rstr_core/src/binary/serialization.rs:135-180 | integers and strings have the size given for them; an array has four bytes more |
| CodecStreams.BinaryWriter.WriteU32 | rstr_core/src/binary/writer.rs:34-43 | appends the number's four bytes, most significant first, and moves the position by four |
| CodecStreams.BinaryWriter.WriteI32 | rstr_core/src/binary/writer.rs:45-47 | the same for its two's complement |
| CodecStreams.BinaryWriter.WriteU64 | rstr_core/src/binary/writer.rs:49-62 | appends the number's eight bytes and moves the position by eight |
| CodecStreams.BinaryWriter.WriteI64 | rstr_core/src/binary/writer.rs:64-66 | the same for its two's complement |
| CodecStreams.BinaryWriter.WriteString | rstr_core/src/binary/serialization.rs:82-100 | length prefix and bytes, as the format says |
| CodecStreams.BinaryWriter.WriteTypedArray | rstr_core/src/binary/writer.rs:68-77 | the loop writes length and elements as the format says, and the position moves with them |
| CodecStreams.BinaryReader.ReadU32 | rstr_core/src/binary/reader.rs:30-40 | consumes four bytes and gives their value, or fails for fewer |
| CodecStreams.BinaryReader.ReadI32 | rstr_core/src/binary/reader.rs:42-44 | the same, as a signed number |
| CodecStreams.BinaryReader.ReadU64 | rstr_core/src/binary/reader.rs:46-60 | consumes eight bytes and gives their value, or fails for fewer |
| CodecStreams.BinaryReader.ReadI64 | rstr_core/src/binary/reader.rs:62-64 | the same, as a signed number |
| CodecStreams.BinaryReader.ReadSizedString | rstr_core/src/binary/reader.rs:66-71 | consumes a prefix and as many bytes as it says |
| CodecStreams.BinaryReader.ReadTypedArray | rstr_core/src/binary/reader.rs:79-89 | the loop reads the elements as the format says, and the position moves by the bytes consumed |

## Left out

- The hash function: Xxh3 itself is not part of this model.
- Widths of `u64` and `usize` counters and of the `u32` chunk index: unbounded here; they would need files of 2^64 bytes or 2^32 chunks.
- Overflow checks: `u32` arithmetic wraps as in a release build; a debug build would panic instead.
- Saving the index: it truncates the file and then writes; here it is one step that succeeds.
- Modification times of local files, and errors of opening the source file in metadata creation.
- The client's internal event channel: sends into it always succeed.
- The Sender's answer to a stop when it has no token (an error that is only printed), and which of several cancelled transmissions ends first: at most one is ever under way.
- PipelineFlow.RunFlow: runs with stops, disconnections and failed writes are excluded. `StopAndResume` covers a stop with a resume once the system is at rest; before that, stale blocks of the stopped transmission really can follow a new request, and then only what is proved for the Receiver alone holds, which covers all of these. The files on the Sender's disk stay as they are during a run.
- Sync.Converges: publication stamps are strictly increasing, because two publications within one millisecond, or a clock set back, really can hide one of them; `Sync.DeliveredIff` says exactly when.
- ReceiverClient.Receiver.constructor: the failure for an index file that exists but cannot be read or decoded is not modelled.
- ServerProcess.Server.constructor: the same failure is not modelled.
- Paths.ConvertIndex: the directories are a set, without their display names and sorted order, which come from a library.
- CodecStreams.BinaryReader.ReadSizedString: the error for bytes that are not valid UTF-8 is not modelled; strings on the wire are byte strings.
- Sharing of clients between the event loop and the connections (`Arc<Mutex<Client>>`): clients are values in a map; the end of a connection is an input of its own, `Closed`.
- WebSockets, TCP, scheduling, and the bincode encoding of messages and index: queues in order, messages as a datatype.
- Authentication: a login carries a key that is compared with a token; user names are ignored, as in the program.
- Progress values, size formatting, logging, environment variables, command line and GUI.
- Reader `seek`, unsized strings, and sizes of the types that are never written.
- The stale static size of the block header in `rstr_core/src/message.rs`: nothing reads or writes that header.
- `rstr_projfs`: unfinished, with no behaviour to hold it to.
- CodecStreams.BinaryReader.ReadTypedArray: elements are read by a function of the remaining bytes that never yields more than it was given, which every reader of the program satisfies.

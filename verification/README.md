# Verified model of the S3 downloader

This project models the download engine in `downloader/`: the parallel ranged download of one
object, the prefix download of many, and the canonical forms and key cache of the request signer.
It proves, for every interleaving of the goroutines and every answer of the server and the disk,
what a call publishes, that it ends, what it counts and what it returns. Nothing here was executed.

`dafny verify dfyconfig.toml` verifies everything.

## How it is laid out

One call of `Download` is a labelled step system (`Transfer.dfy`). A label says who moves
(dispatcher, a chunk's goroutine, an outside cancel, a crash) and what the environment answered, and
`Transfer.Next` is a function of state and label, so a run is a sequence of labels and "every
interleaving" is "every sequence of labels that can be followed". A step of a goroutine is one access
to shared state: reading the counter, reading a buffer and counting it, one positioned write, loading
and subtracting at a rollback, recording the result, releasing the slot. The small-object path is the
same system with a single worker and no dispatcher.

- `Storage.dfy` files, positioned writes, `SectionWriter`, preallocation
- `Chunking.dfy`, `Backoff.dfy` 64-bit arithmetic of the split and of the pauses
- `Transfer*.dfy` the step system and its theorems: who runs and what the counts mean
  (`TransferInvariants`), what is published (`TransferContent`), termination and cancellation
  (`TransferLiveness`), the progress counter (`TransferProgress`), runs built for every configuration
  (`TransferRuns`), runs in which nothing goes wrong (`TransferQuiet`), and the exact conditions under
  which the properties that can fail hold (`TransferWitnesses`)
- `Worlds.dfy` what the server, the disk and the caller have in store for one call (the answer to every
  attempt, the room on the disk, which file operations fail), and what the call comes to in that world
- `Downloader.dfy` the same code written imperatively, with its fields, loops and early returns, over
  a ghost state of the step system: each method is proved to take only steps the system has, and to
  fail, retry, write, count and return exactly what its world has in store
- `ETags.dfy` which ETags name an MD5 and what comparing one means
- `Paths.dfy`, `Resume.dfy` keys to files, crashes and restarts, downloads side by side on one disk
- `Directory.dfy` prefix downloads and the downloads they start as one system on one disk, crashed and
  repeated
- `Listing.dfy`, `PrefixDownload.dfy`, `PrefixAccounting.dfy`, `PrefixProgress.dfy` the prefix download
  as step systems: the listing through two channels, the files, the accounts, the progress
- `Reporting.dfy` the prefix system with the downloads that report to it: every call of a progress
  closure comes from a goroutine that has just read and counted a buffer
- `Lister.dfy`, `MultiDownloader.dfy` the same code written imperatively over those systems, down to
  `DownloadPrefix` itself
- `Order.dfy`, `Strings.dfy`, `Hex.dfy`, `Escaping.dfy`, `Query.dfy`, `Urls.dfy`, `Signer.dfy`, `Headers.dfy`,
  `SigningKeys.dfy` sorting, escaping, canonical strings, and the signing-key cache
- `Prelude.dfy` options, bytes, sums

## What the code does that its comments do not say

- A single download whose body ends early but cleanly is not retried: `downloadSingle` does not
  compare the count with the size, so the call fails on the size check in `Download`, on the first
  attempt, exactly when the copied body has another length (`TransferWitnesses.ShortSingle`,
  `ShortSingleFails`); a chunk with such a body is retried (`ShortChunkRetried`).
- When the checks before the download stage fail (configuration, HEAD, directory), a temporary file
  left by an earlier crash stays (`TransferWitnesses.EarlyErrorKeepsTemp`); every later error removes
  it (`TransferContent.EndToEnd`).
- The rollback of the progress counter takes off the difference of the shared counter over the
  attempt, other chunks' bytes included. The counter is right in every run exactly when Concurrency
  is 1 or the object fits one chunk (`TransferWitnesses.CounterExactly`).
- A 200 response to a range request is copied whole from the chunk's start. Against a server that may
  ignore ranges every success publishes the object exactly when the object fits one chunk or the
  checksum is verified (`TransferWitnesses.PublishesExactly`). Against one that honours the range or
  sends the whole object it does so also without retries, and only then: with a retry to spare the
  file can be published too long (`TransferWitnesses.IgnoringExactly`).
- The callback that adds a file's progress to the global counter is not atomic, and is called by the
  goroutines of the file's chunks. The counter is right in every run exactly when Concurrency is 1 or
  no listed object is larger than a chunk (`Reporting.ProgressExactlySet`); it is never too low
  (`PrefixProgress.NeverTooLow`).
- `DownloadPrefix` returns no error after an outside cancel stopped its dispatch, even if it did
  nothing (`PrefixAccounting.NilError`, `CancelledNilError`); `Download` itself is saved by its size
  check (`TransferInvariants.UndispatchedIsRejected`).
- The mapping from keys to files is not injective. For keys of any shape, two share a file exactly when
  their segments come to the same place (`Paths.SameFileExactly`); empty segments do that
  (`Paths.EmptySegmentShares`). Of the keys that extend the prefix by ordinary names or are the prefix
  itself, only two share one: the prefix, stored under its last name, and the prefix with that name
  once more, whether or not the prefix ends in a slash (`Paths.FinalPathsDistinct`).
- Segments of two dots are cleaned away. A key's file lies below the output directory, whatever that
  is, exactly when the key's segments after the prefix never climb above their start and end below it
  (`Paths.InsideExactly`).
- `validateConfig` accepts retry settings whose back-off panics; the exact condition is
  `Backoff.NeverPanics`.
- The joined key of the signing-key cache leaves out the secret. Calls are served right in every
  interleaving exactly when those that share a joined key derive one signing key
  (`SigningKeys.ServedExactly`).
- The page loop of a listing ends exactly when the continuation tokens come to a last page
  (`Listing.BoundedExactly`); the code has no bound of its own.

## Model

| member | source | states |
|---|---|---|
| Chunking.SplitIntoChunks | downloader/downloader.go:559-571 | the loop in 64-bit arithmetic yields the partition `Split`, under the exact no-overflow condition |
| Chunking.SplitShape | downloader/downloader.go:562-568 | chunk i has index i, is non-empty, inside the object, no longer than the chunk size, and ends where chunk i+1 starts or the object ends |
| Chunking.SplitOrdered | downloader/downloader.go:562-568 | an earlier chunk lies wholly before a later one |
| Chunking.SplitCovers | downloader/downloader.go:562-568 | every offset of the object lies in exactly one chunk |
| Chunking.SplitTotal | downloader/downloader.go:562-568 | the chunk lengths add up to the object size |
| Chunking.OverflowBound | downloader/downloader.go:562-563 | the loop leaves after ceil(T/C) rounds if and only if ceil(T/C)*C fits in 64 bits; otherwise its variable goes negative and it emits a bad chunk |
| Backoff.Pause | downloader/downloader.go:462-464 | one pause as the machine computes it; panics exactly when the raw delay is below 4 ns |
| Backoff.OverflowExact | downloader/downloader.go:462 | no attempt's shift and product overflow if and only if the last one's do not |
| Backoff.PauseRange | downloader/downloader.go:462-464 | in range, attempt k pauses for at least base*2^(k-1) and less than 5/4 of it |
| Backoff.TotalPause | downloader/downloader.go:459-478 | the pauses of a run add up to less than 5/4*base*(2^retries-1) |
| Backoff.NeverPanics | downloader/downloader.go:462-463 | no attempt panics if and only if there are no retries, or the base is at least 4 ns and the last product fits in 64 bits |
| Backoff.PausesExactly | downloader/downloader.go:459-464 | every pause is the meant one for every jitter if and only if, besides, the last fits with its largest jitter |
| Backoff.FirstOverflow | downloader/downloader.go:462 | the first product of the doubling that does not fit comes out negative |
| Backoff.DefaultsSane | downloader/downloader.go:312-316 | a 500 ms base is in range for up to 34 retries and no further |
| Storage.OverlayEffect | downloader/writer.go:27-31 | a positioned write changes the bytes it covers, zero-fills a gap, and changes nothing else |
| Storage.OverlayJoins | downloader/writer.go:27-31 | consecutive writes equal one write of both buffers |
| Storage.OverlayCommutes | downloader/writer.go:9-11 | writes to disjoint ranges of a file commute |
| Storage.PreallocateFile | downloader/writer.go:42-54 | fails exactly when one of its two calls does; a new file of zeros of the given size, or an error that leaves the path untouched or an empty file |
| Storage.SectionWriter.constructor | downloader/writer.go:19-21 | a writer that has written nothing and starts at the given offset |
| Storage.SectionWriter.Write | downloader/writer.go:27-31 | writes at the current offset as much as the disk has room for, advances by that, and the file stays the base with all written data laid at the start offset |
| Storage.SectionWriter.Written | downloader/writer.go:34-36 | the number of bytes written since creation |
| TransferInvariants.InvAlong | downloader/downloader.go:395-451 | along every run: live goroutines equal the slots taken and never exceed Concurrency, dispatch is in order, no goroutine is left after the wait, and the counts below hold |
| TransferInvariants.ShapeStep | downloader/downloader.go:395-439 | every step keeps the bound on live workers and quiescence after the wait |
| TransferInvariants.CountsStep | downloader/downloader.go:410-450 | every step keeps: totalWritten is the sum of the successful chunks' lengths, retries the sum of back-offs, firstErr names a failed chunk exactly once one failed |
| TransferInvariants.ByteCount | downloader/downloader.go:424-450 | totalWritten never passes the size, and equals it if and only if every chunk completed |
| TransferInvariants.UndispatchedIsRejected | downloader/downloader.go:184-187 | a nil error from the parallel stage with chunks undispatched is rejected by the size check |
| TransferInvariants.AllLanded | downloader/downloader.go:184-203 | whoever reaches the rename has every chunk completed and no goroutine left |
| TransferInvariants.RequestBound | downloader/downloader.go:459-503 | requests never exceed chunks times (MaxRetries + 1) |
| TransferInvariants.RetriesReported | downloader/downloader.go:209-217 | on success TotalRetries is requests minus chunks |
| TransferContent.OwnData | downloader/downloader.go:532-554 | a goroutine's own step keeps its region of the file equal to the object as far as it has written |
| TransferContent.OtherRegion | downloader/writer.go:23-31 | a step of one chunk leaves every other chunk's region alone |
| TransferContent.IntactStep | downloader/downloader.go:368-451 | every step keeps all regions right, for a server that honours ranges |
| TransferContent.Complete | downloader/downloader.go:184-203 | once no goroutine is left, none has failed and the bytes add up, at the rename at the latest, the temporary file is the object byte for byte |
| TransferContent.EndToEnd | downloader/downloader.go:157-217 | in every reachable state, crashes included, the final path holds its old content or, after a success, the object; a return leaves no goroutine, and no temporary file unless it was an early error |
| TransferContent.ChecksumSuffices | downloader/downloader.go:189-206 | for any server at all: the final path changes only with a success, and a verified success with an injective hash published the object |
| TransferLiveness.StepDescends | downloader/downloader.go:400-503 | every step takes a lexicographic measure down |
| TransferLiveness.Terminates | downloader/downloader.go:400-503 | no infinite run |
| TransferLiveness.SomeoneMoves | downloader/downloader.go:395-439 | no deadlock: until the call is over some step is possible, and every live goroutine has one of its own |
| TransferLiveness.MaximalRunsEnd | downloader/downloader.go:130-218 | a run that cannot go on has returned or crashed |
| TransferLiveness.CancelStopsDispatch | downloader/downloader.go:400-421 | after a cancel at most one more chunk is dispatched, and only if the dispatcher was past its check |
| TransferLiveness.FirstErrorKept | downloader/downloader.go:413-443 | firstErr is written once and is the error returned |
| TransferProgress.DriftStep | downloader/downloader.go:490-495 | only a rollback moves the counter off its meaning, by exactly what it read less what it takes off |
| TransferProgress.ExactWithoutOverlap | downloader/downloader.go:480-495 | along a run whose attempts never overlap the counter is exact in every state and ends at the size; which configurations have only such runs is TransferWitnesses.CounterExactly |
| TransferProgress.CounterWithin | downloader/downloader.go:116-125 | with a range-honouring server and no overlap the counter, and so every value reported, stays between zero and the size |
| TransferProgress.OneSlotDisjoint | downloader/downloader.go:335-348 | a single download, and Concurrency 1, never overlap attempts |
| TransferProgress.OwnRollbackExact | downloader/downloader.go:490-495 | subtracting what the attempt itself read would be exact however attempts overlap |
| TransferWitnesses.CounterExactly | downloader/downloader.go:480-495 | the counter is right in every state of every run if and only if Concurrency is 1 or the object fits one chunk |
| TransferWitnesses.RollbackBelow | downloader/downloader.go:490-495 | in every other configuration a reachable state has the counter one below |
| TransferWitnesses.RollbackAbove | downloader/downloader.go:490-495 | and another has it one above |
| TransferWitnesses.PublishesExactly | downloader/downloader.go:189-206 | against a server that may ignore ranges every success publishes the object if and only if it is fetched whole or its checksum is verified |
| TransferWitnesses.UncheckedCorruption | downloader/downloader.go:532-552 | for every configuration outside that, an object and a success without retries that publishes wrong bytes of the right size |
| TransferWitnesses.IgnoringExactly | downloader/downloader.go:532-552 | against a server that honours the range or sends the whole object, every success publishes the object if and only if it is fetched whole, its checksum is verified, or there are no retries |
| TransferWitnesses.OverlongPublished | downloader/downloader.go:550-552 | outside that, a success that publishes a file too long by a chunk: an overrun, and then a retry that honours the range |
| TransferWitnesses.EarlyErrorKeepsTemp | downloader/downloader.go:131-163 | an error before the download stage leaves a temporary file as it was |
| TransferWitnesses.ShortSingle | downloader/downloader.go:296-305 | a single download at the size check is refused if and only if the body it copied has another length than the object |
| TransferWitnesses.ShortSingleFails | downloader/downloader.go:184-187 | any body of another length ends the call with a size mismatch after one request and no retry |
| TransferWitnesses.ShortChunkRetried | downloader/downloader.go:550-552 | a chunk whose body has ended is done if and only if the length is right, and is otherwise retried |
| TransferRuns.SuccessReachable | downloader/downloader.go:130-218 | for every configuration, a file the server may send, of the right size and hash, can be published by a run without retries |
| TransferQuiet.QuietRuns | downloader/downloader.go:130-218 | in every interleaving without a fault no error is kept and nothing is retried, and a call that has ended is a success without retries that has published the object |
| TransferQuiet.QuietRunsSucceed | downloader/downloader.go:130-218 | a run without a fault that cannot go on without one has ended, with that success |
| Worlds.SucceedsExactly | downloader/downloader.go:130-218 | the result Download has in store, with truthful answers and no cancel, is a success if and only if the checks pass, every chunk has an attempt within MaxRetries + 1 that goes well, the file opens, syncs and can be read back if need be, the object has the hash and the rename works; and then the object is published |
| Worlds.WellSucceeds | downloader/downloader.go:130-218 | if every first request is accepted with its whole slice and nothing else fails it is a success with no retry that publishes the object |
| Worlds.ContentIsObject | downloader/downloader.go:532-554 | the attempts, failed ones included, lay the object in the file, if what they are sent is the object's |
| ETags.IsSimpleETag | downloader/downloader.go:615-635 | true if and only if the ETag is 32 hexadecimal digits with any number of quotes before and after |
| ETags.UnquoteExactly | downloader/downloader.go:620 | unquoting takes off all the quotes around a text that neither begins nor ends with one, and nothing else |
| ETags.VerifyMD5 | downloader/downloader.go:639-661 | accepts exactly when the file can be read back and its digest text is the ETag's digits in lower case, whatever quotes are around them |
| ETags.EncodeText | downloader/downloader.go:655 | the text of a digest is two small hexadecimal digits a byte, the high half first |
| ETags.LowerText | downloader/downloader.go:640 | lower-casing keeps every digit's value and makes it small |
| ETags.ComparesDigests | downloader/downloader.go:640-657 | comparing the texts is comparing the digests, in whichever case the ETag is written |
| ETags.ChecksumNamesObject | downloader/downloader.go:639-661 | with an injective digest the comparison singles out the object |
| Downloader.Session.CountingRead | downloader/downloader.go:116-125 | reads up to a buffer and adds what was read to the shared counter, in one step of the system |
| Downloader.Session.CopyBuffer | downloader/downloader.go:545-548 | the copy lays as much of the body as the disk has room for at the writer's offset, and fails if and only if that is not all or the body broke off; without failure the counter gains what was copied |
| Downloader.Session.DownloadChunk | downloader/downloader.go:508-555 | an attempt fails if and only if it is refused, its body breaks off or has another length than the chunk, or the disk has no room for it; the chunk's section gets exactly what the disk took |
| Downloader.Session.DownloadSingle | downloader/downloader.go:259-306 | an attempt at the whole object fails if and only if it is refused, its file cannot be made or synced, its body breaks off, or the disk has no room; else the new file holds the body |
| Downloader.Session.RollBack | downloader/downloader.go:490-495 | takes the non-negative difference over the attempt off the counter |
| Downloader.Session.Attempt | downloader/downloader.go:480-495 | after a failed attempt the progress counter is what it was, and after one that goes well it is larger by the chunk |
| Downloader.Session.BackOff | downloader/downloader.go:460-478 | counts a retry and waits, stopping only if the caller cancelled |
| Downloader.Session.DownloadChunkWithRetry | downloader/downloader.go:456-504 | the last attempt made is the first that goes well, or the last allowed, unless the context is done; retries are one fewer than attempts, the file holds what these attempts laid, and the counter gains the chunk or nothing |
| Downloader.Session.DownloadSingleWithRetry | downloader/downloader.go:309-356 | the same for a small object, whose file is made anew by each attempt; the temporary file is removed before each retry |
| Downloader.Session.Record | downloader/downloader.go:414-424 | adds the bytes, or keeps the first error and cancels |
| Downloader.Session.RunChunk | downloader/downloader.go:409-436 | a goroutine adds its chunk's length once, if some attempt goes well, or records the first error and cancels, and gives back one slot |
| Downloader.Session.DispatchOne | downloader/downloader.go:400-409 | one round of the dispatcher: stops on a done context, else takes a slot and starts the chunk |
| Downloader.Session.RunParallel | downloader/downloader.go:368-439 | the dispatcher comes to the wait with every goroutine through; without a cancel the error kept is the first chunk's that uses up its attempts, and with none the file, the total and the retries are those of all chunks |
| Downloader.Session.Settle | downloader/downloader.go:178-217 | after the wait the result is the first error, a failed fsync, a wrong size, a wrong hash, a failed rename or a success, in that order, and the file is published with a success only |
| Downloader.Session.Download | downloader/downloader.go:130-218 | without a cancel the result is exactly the one in store, whatever the server does: when nothing goes wrong a success without retries that publishes the object, else the error of the first stage that fails; success publishes the object if the server honours ranges and matches the checksum whatever it does, and the counter ends at the size; an error leaves the final path alone and, past the early checks, no temporary file |
| Downloader.RightContent | downloader/downloader.go:157-206 | every run of the code against a range-honouring server leaves the right final path |
| Resume.OldOrComplete | downloader/downloader.go:157-206 | over any sequence of calls for one object and their crashes its final path holds its first content or the object; whole directories are Directory.RoundsKeep |
| Resume.SkipSoundExactly | downloader/multi.go:160-180 | for one object's path, skipping by size never skips an incomplete file if and only if no other file of that size was there at first; whole directories are Directory.SkipSoundExactly |
| Directory.InvAlong | downloader/multi.go:141-254 | every step of DownloadPrefix and of the downloads it starts keeps each file's goroutine, download and disk in agreement |
| Directory.ResultsOnDisk | downloader/multi.go:160-287 | at any moment of any run a file with a result that is no error is complete on the disk, and after a nil error without outside cancel every listed file is |
| Directory.RoundsKeep | downloader/multi.go:141-254 | over any sequence of crashed prefix downloads into a directory every meant path holds its first file or its object, and unused paths do not move |
| Directory.SkipSoundExactly | downloader/multi.go:160-180 | the skip test never passes an incomplete file over all such sequences if and only if it would not have at first |
| Directory.ResumeCompletes | downloader/multi.go:160-287 | after any crashed prefix downloads, one that returns no error and was not cancelled leaves every path it serves complete; by keys it is Directory.KeysComplete |
| Directory.BeginsByKeys | downloader/multi.go:153-186 | the downloads set up for the listed keys, at the paths those keys map to, are a beginning of the joint system |
| Directory.KeysComplete | downloader/multi.go:153-287 | so every listed object is complete where its key goes in the output directory |
| Resume.TempHasFullSizeEarly | downloader/writer.go:38-54 | a crash right after preallocation leaves a temporary file of full size |
| Resume.AsIfAlone | downloader/multi.go:141-254 | downloads interleaved on one disk with separate paths each behave as a run of their own |
| Resume.ApartExactly | downloader/multi.go:153-158 | keys of any shape in flight, each to a file with a name, share no path if and only if no two come to one place and none to another's temporary place |
| Resume.KeysApart | downloader/multi.go:153-158 | for keys that extend the prefix by ordinary names or are the prefix, that is if and only if none has another's temporary name and the prefix does not come with its twin; keys of any shape are Resume.ApartExactly |
| Resume.PrefixOldOrComplete | downloader/multi.go:141-254 | a prefix download crashed anywhere leaves each path with its old file or the whole object |
| Paths.SameFileExactly | downloader/multi.go:153-158 | for keys of any shape, two go to one path if and only if their segments resolve to the same place |
| Paths.SameTempExactly | downloader/writer.go:58-62 | and their temporary paths meet under the same condition, for keys that go to a file with a name |
| Paths.TempIsFileExactly | downloader/writer.go:58-62 | a temporary path is another key's path if and only if that key's place is the temporary one |
| Paths.EmptySegmentShares | downloader/multi.go:154-158 | under every prefix a key with an empty segment before its name shares the file of the key without |
| Paths.InsideExactly | downloader/multi.go:154-158 | a key's file lies below every output directory if and only if its segments never climb above their start and end below it |
| Paths.LandsBeside | downloader/multi.go:154-158 | a key that goes up once and down by a name lands beside the output directory |
| Paths.FinalPathsDistinct | downloader/multi.go:153-158 | of the keys that extend the prefix by ordinary names, or are the prefix, two go to one path if and only if they are one key, or the prefix and the prefix with its last name once more; keys of any shape are Paths.SameFileExactly |
| Paths.TempPathsDistinct | downloader/writer.go:58-62 | the temporary paths of such keys meet under the same condition; keys of any shape are Paths.SameTempExactly |
| Paths.TempMeetsFinal | downloader/writer.go:58-62 | the temporary path of such a key meets another's path if and only if that key's names are the temporary ones; keys of any shape are Paths.TempIsFileExactly |
| Paths.TempPathShape | downloader/writer.go:58-62 | the temporary file stands beside the file, as "." + name + ".tmp" |
| Paths.MappingNotInjective | downloader/multi.go:154-158 | under every prefix that has a last name, the prefix and its twin are stored in one file |
| Paths.PlainFile | downloader/multi.go:153-158 | a key that extends the prefix by ordinary names goes to the output directory followed by those names |
| Paths.PlainPrefix | downloader/multi.go:153-157 | the prefix itself, with or without a slash at its end, goes to the file of its last name |
| Paths.PlainTemp | downloader/writer.go:58-62 | the temporary file of "name" is ".name.tmp" in the same directory |
| Listing.CompleteAndOrdered | downloader/lister.go:41-91 | the consumer always has a beginning of the pages' contents in order, and all of it on a nil error; which objects those are is Listing.ContentsExactly |
| Listing.ContentsExactly | downloader/lister.go:65-69 | the contents are all listed objects in order, each as often as it is listed, except those of size 0 whose keys end in a slash |
| Listing.CollectedOnce | downloader/lister.go:65-69 | and only one sequence is that |
| Listing.SomeoneMoves | downloader/lister.go:42-90 | neither side of the two channels blocks for ever, and sending the error never waits |
| Listing.ListingEnds | downloader/lister.go:52-87 | over a finite token chain every run ends within a bound given by the pages |
| Listing.QuietRunsSucceed | downloader/multi.go:94-102 | with no failed page and no cancel no error is reported |
| Listing.BoundedExactly | downloader/lister.go:52-87 | the runs of a listing are bounded if and only if the tokens come to a last page |
| Lister.Pipe.Send | downloader/lister.go:71-76 | the select puts the object into the channel, in order, once there is room, or reports the done context |
| Lister.Pipe.SendPage | downloader/lister.go:64-77 | a page's objects go out in order, all but the empty ones whose keys end in a slash |
| Lister.Pipe.Produce | downloader/lister.go:45-88 | the producer's loop sends everything the pages list, or reports one error: a failed page or a cancel |
| Lister.Pipe.Close | downloader/lister.go:46-47 | errCh closes before objectCh, its error kept |
| Lister.Pipe.Collect | downloader/multi.go:94-102 | the consumer drains the channel and then reads the error, if there is one |
| Lister.Pipe.ListAll | downloader/lister.go:41-91 | whatever the two sides' timing: on a nil error exactly the listed objects, in order, without the empty ones whose keys end in a slash, and else a beginning of them; the error is the first page that fails, or a cancel, and nil if there is neither |
| MultiDownloader.Session.Stat | downloader/multi.go:153-165 | a file is skipped exactly when the path its key is mapped to holds a file of the listed size |
| MultiDownloader.Session.Settle | downloader/multi.go:222-241 | the counts, the total, the first error and the cancel that a result causes |
| MultiDownloader.Session.RunFile | downloader/multi.go:149-253 | a file's goroutine appends exactly one result, skipped or what its download returned, leaves the disk accordingly and gives back one slot |
| MultiDownloader.Session.Dispatch | downloader/multi.go:141-256 | the dispatch loop ends at the wait with one result for each file started, in order, and for all files unless the caller cancels or fail-fast stopped at the last one |
| PrefixAccounting.ErrorReturned | downloader/multi.go:260-287 | in every run: no error if nothing failed, under fail-fast one of the failed files, else how many failed |
| MultiDownloader.Session.Conclude | downloader/multi.go:260-287 | the result adds up, and the error is the first one under fail-fast, else the number failed, else nil |
| MultiDownloader.DownloadPrefix | downloader/multi.go:69-288 | exactly which refusal comes when; otherwise the announced total and a balanced result over exactly the listed objects, markers apart, for all of them unless there is a cancel or a fail-fast error; for keys that go to separate paths, an object is skipped if and only if its path in the output directory held the listed size before, a download is there afterwards with its size, and all other paths are as they were |
| PrefixDownload.TotalSize | downloader/multi.go:109-112 | the announced total is the sum of the listed sizes |
| PrefixDownload.CollectErrors | downloader/multi.go:261-266 | one error for each failed result, in their order |
| PrefixDownload.ErrorsInOrder | downloader/multi.go:261-266 | the errors are the failed results' own, in the order of the results, and all of them |
| PrefixDownload.FileProgress.OnProgress | downloader/multi.go:202-211 | the global counter gains exactly what the file's highest report gains |
| PrefixAccounting.AccountsAddUp | downloader/multi.go:222-277 | in every run the succeeded, skipped and failed counts are each the number of such results, TotalBytes the succeeded sizes, Errors the failed ones, and no object has two results |
| PrefixAccounting.NilError | downloader/multi.go:279-287 | a nil error means nothing failed, and everything was handled if and only if there are as many results as files, which holds without an outside cancel |
| PrefixAccounting.CancelledNilError | downloader/multi.go:141-144 | a cancel before the first check gives a nil error and no results |
| PrefixAccounting.FirstErrorReturned | downloader/multi.go:230-281 | fail-fast keeps the first error and returns it |
| PrefixAccounting.CancelStopsDispatch | downloader/multi.go:141-147 | after a cancel at most one more file is started |
| PrefixAccounting.RunsAreBounded | downloader/multi.go:141-256 | apart from progress reports a run over n files has at most 11n + 4 steps |
| PrefixAccounting.SomeoneMoves | downloader/multi.go:138-256 | no deadlock, also when FileConcurrency was below one |
| PrefixProgress.NeverTooLow | downloader/multi.go:133-211 | whatever the files report and however the callbacks overlap, when none is under way the global counter is at least the skipped sizes plus each file's highest report |
| PrefixProgress.AggregatedFrom | downloader/multi.go:166-211 | along a run, with callbacks that overlap or not, it never goes down |
| Reporting.ProgressExactly | downloader/multi.go:200-211 | with every callback made by a goroutine that has read and counted a buffer, the global counter is right in every run if and only if no file's attempts can overlap |
| Reporting.ProgressExactlySet | downloader/multi.go:183-211 | that is, if and only if Concurrency is 1 or no listed object is larger than a chunk |
| Reporting.CountedWrong | downloader/downloader.go:116-125 | any listed file outside that has a run in which two goroutines read one byte each and three are counted |
| Reporting.WithinTotal | downloader/multi.go:109-119 | with range-honouring servers and attempts one at a time the counter never shows more than the announced total |
| PrefixProgress.OverlappingCallbacks | downloader/multi.go:201-206 | of two overlapping callbacks the counter gains what it should if and only if one of them has nothing to add |
| SigningKeys.EveryCallIsRight | downloader/signer.go:34-53 | with one secret and no slashes every call returns, in every interleaving, the MAC chained from "AWS4" and the secret over the parts of its own credential scope |
| SigningKeys.ServedExactly | downloader/signer.go:34-53 | any calls are all served right in every interleaving if and only if those that share a joined key derive one signing key |
| SigningKeys.SigningKeyCache.Get | downloader/signer.go:34-53 | a hit gives what is held, a miss the MAC chained over date, region, service and "aws4_request"; on a cache sound for the secret, and without slashes, both are the MAC chained over the parts of the credential scope and the cache stays sound |
| SigningKeys.DeriveChain | downloader/signer.go:174-180 | the derivation is the MAC chained from "AWS4" and the secret over date, region, service and "aws4_request" |
| SigningKeys.DeriveOverScope | downloader/signer.go:87 | that is the chain over the parts of the credential scope a request announces |
| SigningKeys.CacheKeyInjective | downloader/signer.go:35 | without slashes the joined key determines date, region and service |
| SigningKeys.SecondCallServed | downloader/signer.go:37-41 | a call after another with an equal joined key gets the other's signing key, whatever its own arguments |
| SigningKeys.SharedCacheKeys | downloader/signer.go:35 | two secrets, or fields with slashes, share a joined key |
| Signer.GetCanonicalQueryString | downloader/signer.go:117-138 | grouping, sorting keys, sorting values and escaping gives the sorted parameters escaped |
| Query.CanonicalExact | downloader/signer.go:117-138 | two queries have one canonical form if and only if they have the same parameters, each as often |
| Query.CanonicalIdempotent | downloader/signer.go:117-138 | canonicalising a canonical query changes nothing |
| Query.OrderDoesNotMatter | downloader/signer.go:127-136 | reordering the parameters does not change the canonical form |
| Query.ParseCanonical | downloader/signer.go:118-137 | parsing the canonical form gives the sorted parameters |
| Query.PlainPart | downloader/signer.go:118 | a part without escapes is cut at its first equals sign, and one without an equals sign is a key with an empty value |
| Query.DroppedPart | downloader/signer.go:118 | empty parts and parts with a semicolon are dropped |
| Query.GroupedIsSort | downloader/signer.go:123-136 | sorting by key and then each key's values is sorting the pairs |
| Headers.GetCanonicalHeaders | downloader/signer.go:140-172 | both strings are those of some order of ranging over the map; for the headers a request is signed with they are written out |
| Headers.RequestStrings | downloader/signer.go:140-172 | a request's host, hash and date headers give the names "host", "x-amz-content-sha256" and "x-amz-date" joined by semicolons and one line of name, colon and trimmed value each, in every order of ranging |
| Headers.SignedNames | downloader/signer.go:153-160 | the names signed are the host and the lower-cased names that begin with x-amz- |
| Headers.TrimExactly | downloader/signer.go:157 | trimming takes off the white space around a value and nothing else |
| Headers.OrderDoesNotMatter | downloader/signer.go:154-170 | they are the same for all orders if and only if signed headers whose names differ only in case agree |
| Headers.StrictlyAscending | downloader/signer.go:162-170 | with names that differ in more than case they come out strictly ascending |
| Escaping.RoundTrip | downloader/downloader.go:581 | unescaping an escaped string gives it back |
| Escaping.EscapeOne | downloader/downloader.go:581 | which bytes stand for themselves in a path segment and in a query, that a space becomes a plus sign in a query, and that any other becomes a percent sign and two capital digits |
| Escaping.EscapeAppend | downloader/downloader.go:581 | a string is escaped byte by byte |
| Escaping.EscapeUnreserved | downloader/signer.go:134 | a string of unreserved characters escapes to itself |
| Escaping.UnescapePercent | downloader/signer.go:118 | a percent sign is decoded with two hexadecimal digits of either case after it, and is an error without |
| Escaping.SegmentsRoundTrip | downloader/downloader.go:579-583 | escaping between slashes keeps the slashes, empty segments included, and decodes to the original |
| Urls.EscapeInPlace | downloader/downloader.go:580-582 | the in-place loop escapes every part |
| Urls.BuildObjectURL | downloader/downloader.go:577-585 | cut at its first slash after the endpoint, the URL decodes to the bucket and the key, with as many segments as the key has |
| Urls.NamesOneObject | downloader/downloader.go:573-576 | a URL names one bucket and one key |
| Urls.ObjectURLsDistinct | downloader/downloader.go:577-585 | two objects of an endpoint share a URL if and only if bucket and key are equal |
| Urls.BuildListURL | downloader/lister.go:146-165 | cut at its question mark, the URL decodes to the bucket and its query parses to list-type 2, max-keys 1000, the prefix if there is one, the token if there is one, and nothing else |
| Urls.ListQueryParses | downloader/lister.go:154-162 | parsing the list query gives list-type, max-keys, and the prefix and the token if not empty, each once and nothing else, with exactly the prefix's own slashes literal |
| Order.SortForgetsOrder | downloader/signer.go:127-132 | two sequences sort alike if and only if they are permutations of each other |
| Order.LeqExactly | downloader/signer.go:127 | a string comes before another if it is its beginning or has the smaller byte where they first differ |

## Left out

- Downloader.Session.Download: its exact result is that of the one schedule that lets each goroutine run to its end when started; what every schedule publishes, and that every run without a fault succeeds, is TransferContent and TransferQuiet.
- Downloader.Session.RunParallel: on that one schedule.
- Downloader.Session.CopyBuffer: a body that breaks off does so at its end; a read error after n bytes is a body of n bytes that breaks off.
- Downloader.Session.DownloadChunkWithRetry: as in all methods of the class, other goroutines do not move inside it; the step system interleaves at each access to shared state.
- MultiDownloader.DownloadPrefix: on one schedule too; the disk holds sizes, and what many downloads at a time leave on it is Directory.ResultsOnDisk.
- MultiDownloader.Session.Dispatch: on the one schedule that lets each file run to its end when started; the prefix system covers all schedules.
- MultiDownloader.Session.Download: a file's Download appears as reports, a size or an error; its inside is the transfer system.
- Chunking.SplitIntoChunks: requires the no-overflow condition; what happens without it is Chunking.OverflowBound.
- Backoff.Pause: jitter is any value in range, and the step system takes pauses as bare steps, so a back-off panic is not one of its outcomes.
- SigningKeys.SigningKeyCache.Get: without concurrent calls; racing calls are SigningKeys.ServedExactly.
- Headers.GetCanonicalHeaders: header names and white space are ASCII, and every signed header has a value, without which the code panics.
- Paths.SameTempExactly: a key that goes to a directory (its place is the root or ends in two dots) is left out here; Paths.SameFileExactly covers it.
- Directory.ResultsOnDisk: the listing has come before, and the listed size, the size HEAD gives and the object agree.
- Downloader.Session.BackOff: the pause itself is Backoff.Pause.
- Reporting.ProgressExactly: the store of lastReported and the addition to the counter are one step.
- PrefixAccounting.RunsAreBounded: how often a file reports progress is not bounded there; each file's Download ends by TransferLiveness.Terminates.
- Integer width outside Chunking and Backoff: sizes, counters and counts are unbounded integers.
- Cryptography: MD5 and HMAC are function parameters, injective only where a statement says so.
- Signing a whole request, the clock, and the canonical URI (an escaped path from the URL library).
- The HTTP client, redirects, TLS and XML parsing; the server is any sequence of refusals, bodies, breaks and parsed pages.
- Durability: fsync may fail but its effect on what a power loss keeps is not modelled.
- Failures of os.Remove, and a directory that cannot be made other than as an early error.
- Strings are characters below 256, standing for bytes; Unicode case mapping is left out.
- Path functions are those of a system with slashes; symbolic links and case-insensitive file systems are left out.
- The command line, its progress display and its own removal of files, credentials, cgroup detection, byte formatting, verbose logging and buffer pooling.

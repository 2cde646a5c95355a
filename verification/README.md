# Verified models of Calaos

Calaos is a home automation server. This project models the parts of it whose correctness depends on long runs, on the
order of events or on exact formats, and proves what they promise over all inputs and all runs.

| module | what it models |
|---|---|
| `WebSocketFrames` | the incremental parser and the printer of WebSocket frames (RFC 6455, sections 5.2 to 5.5) |
| `MessageStreams` | the reassembly of messages on top of it, for the event stream and for the console (section 5.4) |
| `UrlDownloader` | transfers over libcurl: deferred additions and sweeps, cancellation and deletion from inside callbacks |
| `ConfigDocuments`, `ConfigStore` | the options file, its editing, and everyone who reads, updates, saves or restores the configuration files, with locks, atomic renames, the freeze and crashes |
| `Base64` | the strict base64 codec (RFC 4648) |
| `EditDistance` | the Levenshtein distance in two rows and the suggestion of an option name |
| `ConsoleTunnels` | the life and the flow control of a console between browser and daemon |
| `Alerts` | from an alert to its ack and its push: FIFO worker, store before ack, retries that are bounded and lose nothing |
| `PushCooldown` | the cooldown of alert pushes, rolled back when one fails |
| `HistoryStore` | the retention and the pages of the event history, and the push token of an approver phone |
| `CameraTokens` | short-lived camera tokens against the list of tokens given |
| `IOChangeHub` | change subscriptions that change hands, with re-entrant dispatch |
| `EventText` | the text form of an event, URL encoding and `split` |
| `DiffCoverage` | the diff-coverage gate: unified diffs, exclusion markers, counts |
| `Calendars` | weekdays across the calendar reform of 1752 |
| `Bytes`, `Options` | bytes, exclusive or, words; an optional value |

Each module has the same plan. A state or a value and a function for each step say what the code does, branch by branch.
Lemmas prove the invariants every step keeps, and from them the promises about whole runs. A class, or a method with the
loop of the program, updates fields in place and is proved to compute those functions.

Where the outside world decides, the model lets it decide anything: libcurl, the event loop, the kernel's write queues,
SQLite failures, the clock, random draws, the answers of the daemon and the choices of user code are events or
parameters. `Enabled` says which of them may happen. A run in which the code would do something unsafe is not excluded
by definition: in `UrlDownloader` the safety of each step is a conclusion, not an assumption.

Some promises do not hold of the code on all inputs. The code is modelled as it is, and the exact condition is proved:

* `WebSocketFrames.Reprint`: a frame with a mask bit and a zero key prints without a mask.
* `ConfigStore.RestoredExactly`: the freeze binds one process. Another process may still write a restored file, as in the
  runs of `RestoredIsOverwritten` and `RestoredIsUpdated`; what the file then holds is exactly what the others made of it.
* `HistoryStore.LazyIsEagerExactly`: the lazy purge leaves more rows when one older than an unchanged cutoff came since
  the last purge, as with a cutoff in the future, or when the clock goes back and a DELETE fails meanwhile
  (`LazyIsNotEager`).
* `CameraTokens.AcceptUnlessUnlucky`: `issue` erases the oldest of four tokens before it draws random bytes, so a failed
  draw costs its owner a good token. That is the only way to lose one.
* `ConsoleTunnels.BufferIsBounded`: pongs, resizes and what the WebSocket writes on its own account are held back by no
  pause, and `UnwatchedIsUnbounded` shows the queues they make. All else is bounded.
* `EventText.RoundTrip`: a parameter with an empty name and a value loses its place to its own value.
* `ConfigDocuments.UpdateTwice`: deleting and setting one key in one batch rewrites the file every time.

And in some places the code and its comments differ; the model follows the code:

* An alert is said to be acked once written. It is acked once the worker has dequeued it: a failed INSERT is answered too.
* `Calendar::getDayIdFromDate` is said to give 1 for Monday. It gives 0, which is what its table of names needs.
* `Calendar::isleap` switches rules in 1732, the reform was in 1752. No century lies between, so nothing differs.
* `ConsoleTunnel` says that a queue above HighWater stops the other side until it is under LowWater. Bytes leave a queue
  before their completion is reported, so a side may be paused over an empty queue (`PauseOutlastsTheQueue`).
  `PausedAboveUnlessDrained` says exactly when that happens in a run, and `ResumesInTime` that the pause ends.

## Model

| member | source | states |
|---|---|---|
| `WebSocketFrames.RunAppend` | src/lib/WebSocketFrame.cpp:83-285 | The parser does not depend on how the bytes are cut: a call on `a` that wants more, then a call on its residue and `b`, is one call on `a + b`; a call that finishes leaves `b` alone. For any bytes, malformed ones included |
| `WebSocketFrames.RoundTrip` | src/lib/WebSocketFrame.cpp:336-398 | Whatever makeFrame prints within the limits is read back: same opcode, payload, FIN bit and key, on exactly the bytes printed |
| `WebSocketFrames.ValidIsEncoded` | src/lib/WebSocketFrame.cpp:83-285 | A frame called valid was read off exactly its own encoding: non-minimal lengths, reserved bits and opcodes, oversized payloads never get through |
| `WebSocketFrames.Reprint` | src/lib/WebSocketFrame.cpp:336-398 | Every valid frame reprints to the bytes consumed if and only if it does not carry a mask bit with a zero key |
| `WebSocketFrames.RefusedExactly` | src/lib/WebSocketFrame.cpp:44-81 | On any bytes, however few, a call refuses a frame exactly when the header bytes that are there show one of these faults, with that close code, and takes no more than the header |
| `WebSocketFrames.MaskedTwice` | src/lib/WebSocketFrame.cpp:287-302 | Masking twice with one key changes nothing; which key octet meets which byte is in ValidIsLaid and FrameIsLaid |
| `WebSocketFrames.ValidIsLaid` | src/lib/WebSocketFrame.cpp:83-285 | A frame called valid has the layout of RFC 6455 section 5.2 in the bytes consumed: FIN and opcode, mask bit and length, the big-endian length in two or eight bytes, the key, and payload[i] the exclusive or of the i-th byte after the key with key octet i % 4 |
| `WebSocketFrames.FrameIsLaid` | src/lib/WebSocketFrame.cpp:336-398 | What makeFrame prints has that layout too, and nothing after it |
| `WebSocketFrames.Hello` | src/lib/WebSocketFrame.cpp:287-302 | The masked Hello of RFC 6455 section 5.7, printed and parsed |
| `Bytes.XorIs` | src/lib/WebSocketFrame.cpp:301-301 | The exclusive or is that of each binary digit |
| `WebSocketFrames.WebSocketFrame.ProcessFrameData` | src/lib/WebSocketFrame.cpp:83-285 | The loop over the object's fields computes Run: fields, residue and result |
| `WebSocketFrames.WebSocketFrame.CheckValid` | src/lib/WebSocketFrame.cpp:44-81 | The checks of the header set the verdict that CheckedValid describes |
| `MessageStreams.ChunkIndependence` | src/bin/calaos_server/AdminEvents.cpp:462-472 | Fed chunk by chunk or all at once, a receiver emits the same events and, while open, ends in the same state |
| `MessageStreams.PumpWire` | src/bin/calaos_server/AdminEvents.cpp:533-593 | On the bytes of sendable frames the receiver does exactly what it makes of the frames themselves |
| `MessageStreams.MessagesDeliver` | src/bin/calaos_server/ConsoleTunnel.cpp:450-504 | Fragments with control frames between them are put together into each message of the wanted kind |
| `MessageStreams.EndToEnd` | src/bin/calaos_server/AdminEvents.cpp:533-593 | Any messages within the limits, cut in any fragments with pings and pongs between them, printed unmasked and delivered in any TCP chunks, are handed over exactly, in order, each once; each ping is answered in its place |
| `MessageStreams.ExpectedDelivers` | src/bin/calaos_server/ConsoleTunnel.cpp:498-503 | What is handed over is the list of the wanted messages, and nothing else |
| `MessageStreams.FramesTell` | src/bin/calaos_server/AdminEvents.cpp:533-593 | Any sendable frames in any order: each brings about what the frames before it call for. A ping is answered, a message handed over whole at its last fragment, and a close frame, a misplaced fragment or a message over 1 MiB ends the stream with its own event; nothing comes of what follows |
| `MessageStreams.StreamTells` | src/bin/calaos_server/ConsoleTunnel.cpp:450-511 | The same of their bytes, cut by TCP in any way: the events are those, and the stream is open exactly when none of the frames ended it |
| `MessageStreams.BadHeaderEnds` | src/bin/calaos_server/AdminEvents.cpp:544-548 | After any frames that leave it open, a header that breaks a rule of RFC 6455 section 5.2 or the size limit ends the stream as a protocol error |
| `MessageStreams.MaskedFrameEnds` | src/bin/calaos_server/AdminEvents.cpp:544-548 | So does a frame with a masking key |
| `MessageStreams.MessageStream.OnData` | src/bin/calaos_server/ConsoleTunnel.cpp:406-414 | The object, whose loop erases the bytes it used, does what Feed says |
| `UrlDownloader.EveryRunIsSafe` | src/lib/UrlDownloader.cpp:313-358 | In every run of user code, libcurl and event loop: nothing is touched after its deletion, connections are added and disposed of only outside libcurl's callbacks and added once, each is disposed of once at most and answers its owner once at most, each downloader is freed once at most |
| `UrlDownloader.InvNext` | src/lib/UrlDownloader.cpp:135-202 | Every event keeps the invariant: connections and owners point to each other, a connection not yet added or to be swept has its idler pending, libcurl is on the stack exactly when dispatchDepth says so |
| `UrlDownloader.NoSignalAfterCancel` | src/lib/UrlDownloader.cpp:571-593 | Once cancelled or deleted, a downloader never emits again, in any continuation of the run |
| `UrlDownloader.CancelSilences` | src/lib/UrlDownloader.cpp:571-593 | cancel() itself reaches that state and emits nothing |
| `UrlDownloader.DeleteSilences` | src/lib/UrlDownloader.cpp:549-569 | So does the destructor, in mid-transfer too |
| `UrlDownloader.IdlerTouchesItsOwn` | src/lib/UrlDownloader.cpp:190-199 | A deferred sweep acts on the connection of its serial and on no other, even when the address belongs to a new connection; when its own is gone it does nothing |
| `UrlDownloader.OwnerIsTold` | src/lib/UrlDownloader.cpp:340-356 | A connection that still has its owner is disposed of only together with telling that owner, or because the owner asked out or is being destroyed |
| `UrlDownloader.StartedExactly` | src/lib/UrlDownloader.cpp:595-737 | start() is refused exactly when the downloader was cancelled, is busy, has no URL, no libcurl handle or no destination it can open, or libcurl does not take the handle; a refusal changes no downloader and no connection; inside libcurl the handle waits for an idler |
| `UrlDownloader.NothingLeaks` | src/lib/UrlDownloader.cpp:257-269 | With no idler left, every connection ever started was disposed of exactly once, or is in libcurl's hands with its owner waiting |
| `UrlDownloader.AutodeleteIsFreed` | src/lib/UrlDownloader.cpp:591-592 | In every run an autodelete object that was cancelled, or whose completion has ended, is freed exactly once: by its deferred destruction, which is pending exactly once until then, and so at the latest when the list of the loop is empty |
| `UrlDownloader.RefusedIsDisposed` | src/lib/UrlDownloader.cpp:279-298 | In every run a connection whose socket was refused is disposed of, once, by the time the list of the loop is empty |
| `UrlDownloader.SignalsAreCounted` | src/lib/UrlDownloader.cpp:784-842 | In every run a downloader emits exactly these signals: one for each chunk of data that libcurl brings it, one when a transfer it waits for is over, and the further ones of that completion as long as it is not cancelled |
| `UrlDownloader.CallsAreNested` | src/lib/UrlDownloader.cpp:226-228 | In every run dispatchDepth is the number of dispatches begun and not ended; user code runs inside a body callback or a completion exactly while one has begun and not ended |
| `UrlDownloader.ObjectsAreMade` | src/lib/UrlDownloader.cpp:543-569 | In every run the downloaders there are are those made and not yet deleted, by user code or by their own deferred destruction |
| `UrlDownloader.FlagsAreGiven` | src/lib/UrlDownloader.cpp:571-593 | An object is an autodelete one if it was made so, and cancelled exactly when somebody called cancel() |
| `UrlDownloader.UrlDownloaderCurlManager.StartTransfer` | src/lib/UrlDownloader.cpp:135-170 | startTransfer on the fields of the manager is the step Start |
| `UrlDownloader.UrlDownloaderCurlManager.AbortTransfer` | src/lib/UrlDownloader.cpp:176-202 | abortTransfer is the step Abort, deferred inside libcurl and immediate outside |
| `UrlDownloader.UrlDownloaderCurlManager.DropTransferFromCallback` | src/lib/UrlDownloader.cpp:279-298 | dropTransferFromCallback is the step Drop |
| `UrlDownloader.UrlDownloader.Start` | src/lib/UrlDownloader.cpp:595-737 | start() refuses a cancelled, busy or unready downloader, and is the step DoStart of any state in which the object stands |
| `UrlDownloader.UrlDownloader.CancelTransfer` | src/lib/UrlDownloader.cpp:571-593 | cancel() is the step DoCancel of any state in which the object stands |
| `ConfigDocuments.GetAfterUpdate` | src/lib/ConfigStore.cpp:692-778 | After a batch a reader finds every value set, nothing for a key deleted and not set again, and the old value of every other key |
| `ConfigDocuments.UntouchedNodesStay` | src/lib/ConfigStore.cpp:712-772 | Every node the batch does not name keeps its attributes, its subtree and its place among the others |
| `ConfigDocuments.UpdateTwice` | src/lib/ConfigStore.cpp:774-776 | Once made, the same batch has nothing left to write, exactly when it deletes no key that it also sets |
| `ConfigDocuments.AttributeAfterSet` | src/lib/XmlUtils.h:89-95 | setAttribute sets one attribute and leaves the others |
| `ConfigDocuments.ConfigDocument.GetOption` | src/lib/ConfigStore.cpp:632-661 | The walk returns the value of the first option of that name that has one |
| `ConfigDocuments.ConfigDocument.DeleteOption` | src/lib/ConfigStore.cpp:714-735 | Removing nodes while walking removes every option of the name, and reports whether there was one |
| `ConfigDocuments.ConfigDocument.SetOption` | src/lib/ConfigStore.cpp:737-772 | Sets the first option of the name in place or appends one, and reports whether anything changed |
| `ConfigDocuments.ConfigDocument.SetOptions` | src/lib/ConfigStore.cpp:692-778 | The whole batch, and `changed` exactly when the document did not say it all already |
| `ConfigStore.EveryVersionIsComplete` | src/lib/ConfigStore.cpp:426-593 | Over every interleaving of processes and threads, a crash possible after any step: each file is what the changes made so far, one after the other, make of it; every reader, locked or not, was handed such a version |
| `ConfigStore.ReadsAreFresh` | src/lib/ConfigStore.cpp:632-661 | No read is stale: a reader called after a given point of the run, locked or not, was handed a version with every change made by then |
| `ConfigStore.UpdatesAreRead` | src/lib/ConfigStore.cpp:632-661 | A get_config_option called after an update has succeeded, in any process, finds the value set, or nothing for a deleted key, while nobody touched that key since, whatever else was changed meanwhile |
| `ConfigStore.SuccessMeansWritten` | src/lib/ConfigStore.cpp:961-977 | A writer is told of a success exactly when its change was made, and it was made once |
| `ConfigStore.NoUpdateIsLost` | src/lib/ConfigStore.cpp:692-778 | The value set by an update, or the absence of a deleted key, is what the file holds until somebody touches that key again, whatever happens to the other keys |
| `ConfigStore.UnnamedNodesStay` | src/lib/ConfigStore.cpp:692-778 | From any state of the store to any later one, every node of the options file that no update in between names keeps its attributes, its subtree and its place among the others |
| `ConfigStore.EveryFailureHasACause` | src/lib/ConfigStore.cpp:692-778 | In every run, whoever is told of a failure failed at one moment of it, for want of the lock, because the process was frozen, because the file could not be read, or because the write went wrong |
| `ConfigStore.OneAtATime` | src/lib/ConfigStore.cpp:302-375 | One writer at a time over all processes, none while a reader that got the lock reads, one thread at a time inside each process |
| `ConfigStore.NoTempIsLeft` | src/lib/ConfigStore.cpp:568-573 | In every run without a crash each temporary file there is is being printed by somebody: a write that fails leaves none behind |
| `ConfigStore.ParsePrint` | src/lib/ConfigStore.cpp:613-629 | A complete file reads as the document written, any proper beginning of it does not read at all |
| `ConfigStore.StepsAreDefined` | src/lib/ConfigStore.cpp:446-530 | A writer that prints always has its temporary file, a thread always its process |
| `ConfigStore.InvNext` | src/lib/ConfigStore.cpp:426-593 | Every step of every thread, and every crash, keeps the locks, the temporary files, the log and the freeze consistent |
| `ConfigStore.FrozenIffReplaced` | src/bin/calaos_server/AdminConfig.cpp:542-581 | After a restore the process is frozen if and only if it restarts, if and only if at least one file was replaced |
| `ConfigStore.RestoreWritesThePlan` | src/bin/calaos_server/AdminConfig.cpp:562-574 | From its start until it ends or its process dies, a restore has put in place io.xml, then rules.xml, then local_config.xml if the plan has one, each with its own text of the plan, or the beginning of that list; when it ends it has all of them exactly unless its last write failed, remembers exactly those files, and is frozen if there are any |
| `ConfigStore.CallsAreDone` | src/lib/ConfigStore.cpp:426-593 | In every run what a thread was called for is what it does: the change a call adds to the log is the one of its process and the operation asked for |
| `ConfigStore.RestoredExactly` | src/bin/calaos_server/AdminConfig.cpp:562-574 | At any time after a restore the file is what the later changes of other processes, and nothing of its own, make of the restored text; io.xml and rules.xml are still as restored if and only if whoever replaced them last since then wrote the same text |
| `ConfigStore.RestoredIsOverwritten` | src/bin/calaos_server/AdminConfig.cpp:562-574 | A run in which it is not: process 0 restores and is frozen, process 1 saves the io.xml it has loaded over it |
| `ConfigStore.RestoredIsUpdated` | src/bin/calaos_server/AdminConfig.cpp:562-574 | And runs in which the restored local_config.xml is not: process 1 sets options, any of them, and process 0 is frozen all the same |
| `ConfigStore.RestoredStays` | src/bin/calaos_server/AdminConfig.cpp:562-574 | In particular a replaced file keeps the restored text whatever the threads and saves of the process do, while no other process writes there |
| `ConfigStore.FrozenUntilRestart` | src/lib/ConfigStore.cpp:979-987 | A frozen process stays so, with the same replaced files, until it restarts |
| `ConfigStore.FrozenRefuses` | src/lib/ConfigStore.cpp:696-700 | A frozen process changes no file: saves and restores do not start, option writers are refused, no write of its own is under way |
| `ConfigStore.UnloadedIsNeverSaved` | src/bin/calaos_server/CalaosConfig.cpp:432-441 | Whatever replaces a file that the process has not loaded is its restore: right after that change, the change is the one the restore recorded for the file |
| `Base64.DecodeInvertsEncode` | src/lib/base64.cpp:116-163 | decode(encode(b)) is b for all bytes, with the padding and with all of it removed (RFC 4648, sections 3.2 and 4) |
| `Base64.AcceptedIsEncoding` | src/lib/base64.cpp:116-163 | Whatever is accepted is the encoding of what comes out, up to the padding: no other padding, no leftover bits (RFC 4648, section 3.5) |
| `Base64.AcceptedExactly` | src/lib/base64.cpp:116-163 | The decoder accepts exactly the encodings and the encodings without their padding |
| `Base64.BitsAreKept` | src/lib/base64.cpp:68-114 | The symbols are the bits of the bytes, most significant first, six by six, with zeros to fill the last symbol (RFC 4648, section 4) |
| `Base64.AlphabetIs` | src/lib/base64.cpp:45-49 | The alphabet is A to Z, a to z, 0 to 9, + and /, in that order, and the padding is = |
| `Base64.Foobar` | src/lib/base64.cpp:68-114 | A test vector of RFC 4648 section 10; Foob and Fooba are two more, with one and two padding characters |
| `Base64.WrappedPush` | src/lib/base64.cpp:129-150 | The 32-bit accumulator is never masked and wraps: the bits that are still to come out are right all the same |
| `Base64.Base64Encode` | src/lib/base64.cpp:68-114 | The loop over groups of three bytes computes the encoding |
| `Base64.Base64DecodeChecked` | src/lib/base64.cpp:116-163 | The loop with the wrapping accumulator computes the decoding on unbounded numbers |
| `EditDistance.EditDistance` | src/lib/ConfigOptions.cpp:1131-1150 | The two rows compute the recursive Levenshtein distance |
| `EditDistance.Symmetric` | src/lib/ConfigOptions.cpp:1131-1150 | The distance is symmetric |
| `EditDistance.ZeroIffEqual` | src/lib/ConfigOptions.cpp:1131-1150 | It is zero exactly between equal strings |
| `EditDistance.Triangle` | src/lib/ConfigOptions.cpp:1131-1150 | It satisfies the triangle inequality |
| `EditDistance.NoShorterPath` | src/lib/ConfigOptions.cpp:1131-1150 | No sequence of insertions, deletions and replacements from one string to the other is shorter than the distance |
| `EditDistance.ShortestPath` | src/lib/ConfigOptions.cpp:1131-1150 | There is one of exactly that length |
| `EditDistance.Suggest` | src/lib/ConfigOptions.cpp:1273-1300 | The first key at the least distance, when it is at most 3 edits and less than half the longer length away, nothing otherwise |
| `ConsoleTunnels.BufferIsBounded` | src/bin/calaos_server/ConsoleTunnel.h:55-58 | In every run, for either side: of the input and output that the flow control watches, no more than HighWater and what one read brings waits in a queue, and no more than HighWater while the tunnel is open and the other side is read; the queue is longer only by what no pause holds back |
| `ConsoleTunnels.MessageBytesBound` | src/bin/calaos_server/ConsoleTunnel.cpp:529-532 | What one message of the browser brings to the queue is at most 64 KiB and the headers of four frames |
| `ConsoleTunnels.UnwatchedIsUnbounded` | src/bin/calaos_server/ConsoleTunnel.cpp:467-472 | The exception: runs in which pongs, resizes or the WebSocket's own frames, as many as one likes, make the queue as long as one likes, and nobody is ever paused |
| `ConsoleTunnels.NeverStalls` | src/bin/calaos_server/ConsoleTunnel.cpp:94-102 | In every run, for either side: while a side is paused, writes of more than LowWater bytes are still to be reported, and with nothing to report nobody is paused |
| `ConsoleTunnels.PausedAboveUnlessDrained` | src/bin/calaos_server/ConsoleTunnel.h:55-58 | All along a run whoever is paused is paused above LowWater if and only if no event took the last bytes above LowWater out of the queue of a paused side before their report |
| `ConsoleTunnels.PausedAboveNext` | src/bin/calaos_server/ConsoleTunnel.cpp:94-102 | One event at a time: paused above LowWater stays so, or is resumed, after every event but such a one |
| `ConsoleTunnels.PauseOutlastsTheQueue` | src/bin/calaos_server/ConsoleTunnel.cpp:379-385 | A run that ends with the browser paused and nothing left in the queue to the daemon |
| `ConsoleTunnels.PausedAboveLowWater` | src/bin/calaos_server/ConsoleTunnel.cpp:506-539 | Whenever the tunnel has just looked at a queue, after a read or a report, a side it keeps paused is paused above LowWater |
| `ConsoleTunnels.ResumesInTime` | src/bin/calaos_server/ConsoleTunnel.cpp:379-385 | With anything else going on in between, a side is read again by the time all that waited in its queue when it was paused is reported, if no more than LowWater bytes were written since |
| `ConsoleTunnels.QueueHistory` | src/bin/calaos_server/ConsoleTunnel.cpp:547-553 | Over any stretch of a run a queue holds the writes it held and the writes since, in order, less one from the front for each report |
| `ConsoleTunnels.ReportsResume` | src/bin/calaos_server/ConsoleTunnel.cpp:94-102 | For either side: once what was queued has gone out and its completions are reported, the other side is read again |
| `ConsoleTunnels.ClosedIsFinal` | src/bin/calaos_server/ConsoleTunnel.cpp:555-613 | Closed is absorbing and closeConnection is emitted once at most |
| `ConsoleTunnels.BrowserIsTold` | src/bin/calaos_server/ConsoleTunnel.cpp:555-580 | In every run: before the tunnel closes the browser has not been told to close; once closed, it was told exactly once, and is read so that its answer gets through, unless the event that closed the tunnel was the browser's own close, and then never |
| `ConsoleTunnels.OversizeEnds` | src/bin/calaos_server/ConsoleTunnel.cpp:520-527 | A message of the browser over 64 KiB ends the tunnel, sends none of it, and tells the daemon and the browser to close |
| `ConsoleTunnels.FrameSizeIs` | src/lib/WebSocketFrame.cpp:336-398 | The bytes the flow control counts for a frame to the daemon are those makeFrame prints |
| `ConsoleTunnels.PausedAboveHigh` | src/bin/calaos_server/ConsoleTunnel.cpp:506-539 | A side is paused only over a queue above HighWater |
| `ConsoleTunnels.EndsExactly` | src/bin/calaos_server/ConsoleTunnel.cpp:450-613 | A tunnel ends at exactly these events: the browser leaves, the credentials change, the daemon refuses, vanishes or sends a frame the tunnel gives up on, a write fails |
| `ConsoleTunnels.WrittenIsSent` | src/bin/calaos_server/ConsoleTunnel.cpp:450-553 | While the tunnel lasts, what is written to either side over any stretch of a run is what came for it: input in frames, resizes, an answer to each ping, and every message of the console, whole and in order |
| `ConsoleTunnels.GiveUpSends` | src/bin/calaos_server/ConsoleTunnel.cpp:555-580 | The first frame of the daemon that the tunnel gives up on is answered by a close frame, after the answers and the output of the frames before it |
| `ConsoleTunnels.AllInputArrives` | src/bin/calaos_server/ConsoleTunnel.cpp:529-540 | Over any run the chunks sent to the daemon put together are all that the browser typed while the tunnel was open, and once it is closed the beginning of it; nothing else sends input |
| `ConsoleTunnels.InputArrives` | src/bin/calaos_server/ConsoleTunnel.cpp:529-540 | The chunks of one writeInput put together are the message while the tunnel stays open, a beginning of it otherwise, each of 1 to 16384 bytes |
| `ConsoleTunnels.InvNext` | src/bin/calaos_server/ConsoleTunnel.cpp:450-613 | Every event of browser, daemon, timers and write queues keeps the invariant |
| `ConsoleTunnels.ConsoleTunnel.SendInputMessage` | src/bin/calaos_server/ConsoleTunnel.cpp:529-540 | writeInput, with a write that may fail at once and close the tunnel under the loop |
| `ConsoleTunnels.ConsoleTunnel.WriteDaemon` | src/bin/calaos_server/ConsoleTunnel.cpp:547-553 | A write that fails at once ends the tunnel from inside the call, and the recursion through finish and closeDaemon ends |
| `ConsoleTunnels.ConsoleTunnel.ProcessFrames` | src/bin/calaos_server/ConsoleTunnel.cpp:450-511 | The loop stops with the first frame that closes the tunnel, then pauses the daemon above HighWater |
| `Alerts.AckedAfterDequeued` | src/bin/calaos_server/AdminEvents.cpp:646-664 | An alert first seen by this process is acked only after the history worker took its append off the queue |
| `Alerts.RetriesAreBounded` | src/bin/calaos_server/AdminEvents.cpp:787-877 | One ack of an id in flight at most, one timer for each series, five timers with doubling delays at most, 64 series at most |
| `Alerts.AlertIsOnItsWay` | src/bin/calaos_server/AdminEvents.cpp:630-676 | After an alert has come, it is being stored or its ack is in flight; once stored, its ack is in flight |
| `Alerts.StoredOnceAtATime` | src/bin/calaos_server/AdminEvents.cpp:646-664 | An alert is being stored exactly as long as one answer that will ack it is on its way |
| `Alerts.AckIsNotLost` | src/bin/calaos_server/AdminEvents.cpp:787-877 | In every run, from the event that calls for an ack on and while nobody stops the stream, the ack is in flight or its retry timer runs, until the daemon takes it or its series of retries is over |
| `Alerts.PushIsNotLost` | src/bin/calaos_server/AdminEvents.cpp:772-785 | The same of the push of a new alert, until it is sent, held back by the cooldown, or its series is over |
| `Alerts.PushesAreCounted` | src/bin/calaos_server/AdminEvents.cpp:772-785 | Over any run the pushes that wait for an answer are those of the new alerts and of the retries that fired, less the answers: none is sent twice, none without cause |
| `Alerts.AckInFlight` | src/bin/calaos_server/AdminEvents.cpp:787-807 | An ack is sent when it is called for or its retry is due, one at a time, and its reply ends it |
| `Alerts.JobsInOrder` | src/lib/ThreadedQueue.h:52-77 | Over any run the worker takes the jobs in the order they were asked for, for each new alert its append and then its read; an alert counts as dequeued exactly when its append was taken |
| `Alerts.StoredAreTheLast` | src/bin/calaos_server/AdminState.cpp:279-284 | What is listed as stored are the last 64 ids: those of the file, then the new ones in order |
| `Alerts.SettledEndsTheSeries` | src/bin/calaos_server/AdminEvents.cpp:870-877 | A success, or a push held back, deletes the timer of the series, and the next series starts afresh |
| `Alerts.StoppedIsQuiet` | src/bin/calaos_server/AdminEvents.cpp:300-316 | In every run no retry timer runs while the stream is stopped |
| `Alerts.DequeueOrdered` | src/lib/ThreadedQueue.h:52-77 | First in, first out: the answer of an alert follows its append |
| `Alerts.InvNext` | src/bin/calaos_server/AdminEvents.cpp:630-676 | Every event, replays and lost answers included, keeps the invariant |
| `Alerts.ThreadedQueue.WaitPop` | src/lib/ThreadedQueue.h:52-69 | Takes the oldest item, or nothing once invalidated; what went through and what waits are together unchanged |
| `Alerts.HistLogger.WorkOnce` | src/bin/calaos_server/HistLogger.cpp:573-577 | One turn of the worker over that queue is DoDequeue, or nothing at all once the queue was invalidated |
| `Alerts.AdminEvents.WorkerTurn` | src/bin/calaos_server/HistLogger.cpp:573-577 | Seen from the alerts, whose state holds that worker and that queue, the turn is the step Dequeue |
| `Alerts.ThreadedQueue.Push` | src/lib/ThreadedQueue.h:71-76 | Appends |
| `Alerts.AdminEvents.RetryLater` | src/bin/calaos_server/AdminEvents.cpp:810-847 | scheduleRetry on the table of series is ScheduleRetry |
| `Alerts.AdminEvents.OnAlert` | src/bin/calaos_server/AdminEvents.cpp:630-676 | processAlert on the fields is the step Alert |
| `Alerts.AdminEvents.RetryNow` | src/bin/calaos_server/AdminEvents.cpp:856-868 | retryNow is the step Fire |
| `PushCooldown.PushesAreApart` | src/bin/calaos_server/AdminState.cpp:316-342 | Two pushes of one kind neither of which failed are at least the interval apart, in whatever order the answers come |
| `PushCooldown.HeldBackExactly` | src/bin/calaos_server/AdminState.cpp:316-325 | A push is held back exactly when one of its kind that has not failed went out within the interval: a failure costs nobody a push |
| `PushCooldown.AlertIsPushed` | src/bin/calaos_server/AdminState.cpp:316-330 | In every run an alert sends exactly one push, of its kind, at its time and waiting for its answer, unless one of its kind that has not failed went out within the interval; nothing else sends one |
| `PushCooldown.OutcomesAreAnswers` | src/bin/calaos_server/AdminState.cpp:331-342 | A push counts as failed exactly when its answer was a refusal, as delivered exactly when it was not |
| `PushCooldown.AdminState.PushAlert` | src/bin/calaos_server/AdminState.cpp:303-330 | pushAlert on the map of stamps is the step Alert |
| `PushCooldown.AdminState.Answered` | src/bin/calaos_server/AdminState.cpp:331-342 | The rollback happens only while the stamp is still the push's own |
| `HistoryStore.LazyIsEagerExactly` | src/bin/calaos_server/HistLogger.cpp:283-325 | From the start of the worker, on any rows of an earlier run: purging only when the cutoff changes leaves, after every insert, exactly the rows that a DELETE after every insert leaves, if and only if no insert finds the cutoff of the last purge unchanged and a row older than it inserted since then, or is older itself. For any inserts, cutoffs and failing DELETEs |
| `HistoryStore.LazyIsNotEager` | src/bin/calaos_server/HistLogger.cpp:298-303 | A run of three inserts in which they differ, although no row is older than the cutoff it comes with: the clock goes back, the DELETE fails, and the clock is put right |
| `HistoryStore.LazyIsEager` | src/bin/calaos_server/HistLogger.cpp:283-288 | In particular the rows are the same while no row is older than its own cutoff and none that comes with a failing DELETE is older than an earlier one |
| `HistoryStore.SameExceptOldRow` | src/bin/calaos_server/HistLogger.cpp:298-303 | On any table one insert differs if and only if the DELETE is skipped because the cutoff did not change, and a row of the table or the new row is older than it |
| `HistoryStore.LeDay` | src/bin/calaos_server/HistLogger.cpp:57-57 | Compared as texts, a row is older than a cutoff day exactly when its own day is |
| `HistoryStore.EventsTable.InsertEvent` | src/bin/calaos_server/HistLogger.cpp:383-396 | The insert and the purge on the table are the step Lazy |
| `HistoryStore.EventsTable.PurgeEvents` | src/bin/calaos_server/HistLogger.cpp:287-325 | The cutoff is remembered exactly when the purge did not fail |
| `HistoryStore.PagesAreEverything` | src/bin/calaos_server/HistLogger.cpp:327-358 | The pages announced are non-empty, no larger than asked, and together every row once in order; one page past the last is answered, empty, and no other |
| `HistoryStore.RowsAreKept` | src/bin/calaos_server/HistLogger.cpp:283-325 | Over any inserts a row that no cutoff reaches is in the table as often as it was inserted, and no row is there more often |
| `HistoryStore.YoungerIs` | src/bin/calaos_server/HistLogger.cpp:311-318 | A purge takes exactly the rows up to the cutoff and leaves the others in order |
| `HistoryStore.RegisteredIs` | src/bin/calaos_server/HistLogger.cpp:150-233 | A registration leaves one row of its token and the others as they are: a new token gets a row with what was sent, a known one what was sent on top of what it had, an approver only the time and a first key |
| `HistoryStore.StaysRegistered` | src/bin/calaos_server/HistLogger.cpp:150-233 | A registered row stays as it is until its token registers again or a purge reaches it |
| `HistoryStore.PurgeIs` | src/bin/calaos_server/HistLogger.cpp:224-232 | The purge of the tokens takes exactly the rows up to the cutoff that are not an approver's |
| `HistoryStore.ApproverIsFrozen` | src/bin/calaos_server/HistLogger.cpp:150-192 | Whoever registers what, and however old it gets, an approver's row keeps its name, its format and its key, and is never purged |
| `HistoryStore.FirstKeyIsTaken` | src/bin/calaos_server/HistLogger.cpp:166-172 | An approver enrolled without a key takes the first one registered |
| `CameraTokens.AcceptIsExact` | src/bin/calaos_server/CameraTokens.cpp:96-116 | In every run a token is accepted if and only if some event gave it less than two minutes ago, no revoke of its owner and no revokeAll came since, it is among the last four given to its owner, and no issue since took it for a token that was then not drawn |
| `CameraTokens.LogIsHistory` | src/bin/calaos_server/CameraTokens.cpp:118-137 | Each token was given by one event; it counts as revoked exactly when a revoke of its owner or a revokeAll came after that event |
| `CameraTokens.AcceptForgets` | src/bin/calaos_server/CameraTokens.cpp:107-111 | A token refused because it has expired is forgotten, and asking changes nothing else |
| `CameraTokens.AcceptUnlessUnlucky` | src/bin/calaos_server/CameraTokens.cpp:66-77 | All along a run the accepted tokens are exactly those given less than two minutes ago, not revoked and among the last four of their owner if and only if no draw failed while its owner held four tokens |
| `CameraTokens.TableIsBounded` | src/bin/calaos_server/CameraTokens.cpp:46-94 | In every run, failed draws included: never more than 1024 tokens, nor more than four of one owner |
| `CameraTokens.FailedDraw` | src/bin/calaos_server/CameraTokens.cpp:66-74 | When the random draw fails, the accepted tokens are still the right ones exactly when the owner held fewer than four |
| `CameraTokens.GivenUnlessFull` | src/bin/calaos_server/CameraTokens.cpp:46-94 | With random bytes a token is given, and accepted at once, exactly unless 1024 unexpired ones are kept and the owner has fewer than four to give up |
| `CameraTokens.Ranks` | src/bin/calaos_server/CameraTokens.cpp:50-62 | Of the tokens an owner holds, the oldest is the one all the others follow |
| `CameraTokens.TokenTable.IssueToken` | src/bin/calaos_server/CameraTokens.cpp:46-94 | issue() on the map is the step Issue |
| `CameraTokens.TokenTable.AcceptToken` | src/bin/calaos_server/CameraTokens.cpp:96-116 | accept() answers Accepted and drops what has expired |
| `CameraTokens.TokenTable.RevokeOwner` | src/bin/calaos_server/CameraTokens.cpp:118-127 | revoke() erases the owner's tokens while iterating, and no other |
| `CameraTokens.TokenTable.PurgeExpired` | src/bin/calaos_server/CameraTokens.cpp:139-148 | The iteration erases exactly what has expired |
| `IOChangeHub.ActiveIffRegistered` | src/bin/calaos_server/IOChangeHub.cpp:40-102 | After any use of subscriptions a slot is active exactly when it is registered under its id, and no id maps to an empty list |
| `IOChangeHub.ActiveAfter` | src/bin/calaos_server/IOChangeHub.cpp:47-102 | Subscribing adds one listener; dropping, moving and overwriting a variable end exactly what that variable held |
| `IOChangeHub.NotifyIsExact` | src/bin/calaos_server/IOChangeHub.cpp:104-124 | A notify whose callbacks subscribe, drop and move subscriptions calls, in order and each once, exactly those slots registered at its start that still are when their turn comes, the IO being there, and leaves the hub sound |
| `IOChangeHub.DroppedIsSkipped` | src/bin/calaos_server/IOChangeHub.cpp:86-102 | A slot that an earlier callback of the same notify lets go of is not called |
| `IOChangeHub.HandlesAfter` | src/bin/calaos_server/IOChangeHub.cpp:47-57 | What each variable holds after a step: a move hands the subscription over and leaves the other variable empty |
| `IOChangeHub.ReachableInOrder` | src/bin/calaos_server/IOChangeHub.cpp:74-84 | In every reachable state the listeners of an IO stand in the order of their subscriptions |
| `IOChangeHub.Hub.DoUnsubscribe` | src/bin/calaos_server/IOChangeHub.cpp:86-102 | The slot is erased and told to skip, and an empty list goes away |
| `IOChangeHub.Hub.DoMove` | src/bin/calaos_server/IOChangeHub.cpp:47-57 | Move assignment ends the old subscription and empties the other variable |
| `IOChangeHub.Hub.DoNotify` | src/bin/calaos_server/IOChangeHub.cpp:104-124 | The loop over the snapshot is Dispatch |
| `EventText.RoundTrip` | src/bin/calaos_server/EventManager.cpp:244-260 | The parameters of an event, any bytes, come back from its text exactly, as the one item, if and only if none has a value without a name; without parameters there is no item |
| `EventText.DecodeEncode` | src/lib/StringUtils.cpp:67-83 | url_decode takes back what url_encode did, for any bytes |
| `EventText.SplitPrinted` | src/lib/StringUtils.cpp:193-221 | A printed parameter splits into its two halves, unless the key is empty and the value is not |
| `EventText.EncodedByteIs` | src/lib/StringUtils.cpp:44-65 | Letters, digits and underscores stay, any other byte becomes a percent sign and its two upper-case hexadecimal digits |
| `EventText.DecodedByteIs` | src/lib/StringUtils.cpp:67-83 | Decoding turns an escape, its digits in either case, into its byte, and leaves everything else as it is |
| `EventText.TokensAre` | src/lib/StringUtils.cpp:193-221 | Split without a maximum gives tokens that are not empty and hold no delimiter, and together they are the rest of the text in order |
| `EventText.NextItem` | src/lib/Utils.cpp:36-61 | A repeated name starts the next item, and what follows is read as if it stood alone |
| `EventText.UrlEncode` | src/lib/StringUtils.cpp:44-65 | The loop computes the encoding |
| `EventText.UrlDecode` | src/lib/StringUtils.cpp:67-83 | The loop, which skips the digits it used, computes the decoding |
| `EventText.SplitText` | src/lib/StringUtils.cpp:193-221 | The search for the next delimiters, any set of them, computes the tokens, the last one unbroken when there is a maximum, padded with empty ones |
| `EventText.ParseParamsItemList` | src/lib/Utils.cpp:36-61 | The loop collects the items, a repeated key starting the next one |
| `EventText.ToString` | src/bin/calaos_server/EventManager.cpp:244-260 | The loop prints the type and the parameters |
| `DiffCoverage.ParsePrintedDiff` | scripts/check-diff-coverage.py:69-105 | Of any diff git prints, with lines of context or without, with prefixes or without, the parser finds for every path exactly the ranges its hunks announce, even when body lines read like headers, and even when a hunk is cut short, provided the next line is no body line |
| `DiffCoverage.RangeIsAdded` | scripts/check-diff-coverage.py:97-103 | With -U0 the range of a complete hunk is exactly the numbers of its added lines |
| `DiffCoverage.ExpectedIs` | scripts/check-diff-coverage.py:69-105 | A line is added to a path exactly when a hunk of a file of that path covers it |
| `DiffCoverage.HeaderOf` | scripts/check-diff-coverage.py:35-35 | The regular expression reads back every printed hunk header, with and without the counts of one |
| `DiffCoverage.HeaderExactly` | scripts/check-diff-coverage.py:35-35 | It takes exactly the lines of that form: digits where digits must be, either count left out or not, both signs, both pairs of at signs |
| `DiffCoverage.ParseDiff` | scripts/check-diff-coverage.py:69-105 | The loop over the lines computes Run, and the lines of every path come out sorted, each once |
| `DiffCoverage.ScanExclusions` | scripts/check-diff-coverage.py:108-136 | Excluded is what is marked or lies below a START still open; problems are the added markers without a reason and an open START the diff adds lines below |
| `DiffCoverage.OpenStartIs` | scripts/check-diff-coverage.py:118-129 | The START that counts as open is the first one no STOP closed |
| `DiffCoverage.ExcludedIs` | scripts/check-diff-coverage.py:108-129 | A line is excluded exactly when it holds a marker itself, or some START above it is not closed by a STOP before it |
| `DiffCoverage.Ranges` | scripts/check-diff-coverage.py:144-151 | Whatever the order of the numbers, the ranges hold exactly them, and no two of them touch if and only if no number comes twice |
| `DiffCoverage.SortLines` | scripts/check-diff-coverage.py:176-192 | Every added line lands on exactly one of the five heaps |
| `DiffCoverage.Evaluate` | scripts/check-diff-coverage.py:154-193 | The heaps are those of every gated file with added lines, in order, cut by the exclusions of its own markers; the problems are those of its scan; the counts add up over the files; the input is refused exactly when a gated file is shorter than one of its added lines |
| `DiffCoverage.GateIsExact` | scripts/check-diff-coverage.py:274-274 | On those heaps and problems the script fails if and only if some gated file adds a line that was not run or is not known of, or one whose exclusion has no reason or is never closed |
| `Calendars.NextDayNumber` | src/lib/Calendar.cpp:235-259 | From one civil day to the next the number grows by one: month and year ends, leap days, and the gap of September 1752 |
| `Calendars.NextDayId` | src/lib/Calendar.cpp:235-259 | So dayId grows by one modulo 7 |
| `Calendars.WeekdayOf` | src/lib/Calendar.cpp:235-259 | The weekday of any civil day follows from that of any other, and no two days share a number |
| `Calendars.EveryDayComes` | src/lib/Calendar.cpp:235-259 | Every civil day is as many days after the first one as its number says |
| `Calendars.YearDaysClosed` | src/lib/Calendar.cpp:242-244 | The loop over the years is a closed form with the Julian and Gregorian leap years |
| `Calendars.IsLeapIsLeapYear` | src/lib/Calendar.cpp:225-230 | The year 1732 of isleap gives the same leap years as the reform of 1752 |
| `Calendars.Anchors` | src/lib/Calendar.cpp:235-259 | 1 January 2024 is a Monday; 2 and 14 September 1752 are a Wednesday and a Thursday |
| `Calendars.Calendar.UpdateDay` | src/lib/Calendar.cpp:235-259 | The two loops compute DayId of any date the buttons can show, the gap of 1752 included |
| `Calendars.Calendar.MonthUp` | src/lib/Calendar.cpp:261-283 | The next month, with a day that exists in it |
| `Calendars.Calendar.DayDown` | src/lib/Calendar.cpp:313-319 | The day before, round the same month |
| `Calendars.UpAndDown` | src/lib/Calendar.cpp:261-319 | The day buttons undo each other, the month buttons exactly when the month gone through has that day |

## Left out

- libcurl, libuv, SQLite, pugixml and OpenSSL themselves: they are events, sequences of rows, sequences of nodes, or a lookup by the token itself where the code looks up its digest, taken as injective.
- `UrlDownloader`: the bytes of a transfer, its headers, timeouts and destination file; user code keeps the contract of the header file (no deletion of an autodelete object, nor of an object from its own completion handler), and 64-bit serials do not wrap.
- `UrlDownloader`: connections and downloaders are records in maps under their address or name, not objects with pointers to each other.
- `ConfigStore`: a file is printed node by node and reads back exactly when complete; XML escaping, encodings, file modes, owners, symbolic links and fsync are not modelled, and rename is atomic and durable.
- `ConfigStore`: the first creation of the default file, which is written directly; the upload of a configuration over HTTP, which sets the same flag; the checks and the merge that make the plan of a restore, which is a parameter.
- `ConfigStore`: the reading of io.xml and rules.xml, the recovery of a corrupt file from its backups and the backups themselves: which files were loaded, and whether the backup succeeded, are parameters.
- `ConfigStore`: saves and restores run in the main thread of a process, as in the program; a save in another thread could slip between the check of the flag and its write.
- `ConfigDocuments`: `get_config_options`, which may disagree with `get_config_option` on a name that occurs twice; the text after a NUL in a value.
- ConfigDocuments.UpdateTwice: speaks of the nodes; the reader's view is in GetAfterUpdate.
- MessageStreams.MessageStream.OnData: the handshake that `daemonData` reads first, and a callback that closes the stream from inside a delivery.
- ConfigStore.ParsePrint: a file is the sequence of its printed nodes, not of the bytes pugixml writes for them.
- `MessageStreams`: the WebSocket handshakes, the reconnection backoff and watchdogs; a write or a callback that closes the stream from inside a delivery; the text of close reasons and `parseCloseCodeReason`.
- WebSocketFrames.RoundTrip: payloads up to the 4 MiB the parser accepts; makeFrame itself has no limit.
- Base64.Base64Encode: its guard against sizes near the end of the address space.
- EditDistance.Suggest: the table of options is a parameter.
- ConsoleTunnels.ConsoleTunnel.ProcessFrames: the frames of one read are given as the acts they cause; reading them off the bytes is proved in `MessageStreams`.
- ConsoleTunnels.BufferIsBounded: the bytes that were read from a socket but make no complete message yet are in no queue.
- `ConsoleTunnels`: the admission of a console (credentials, mode, socket name), the resize messages' content, timers as such.
- Alerts.AdminEvents.OnAlert: marking the approver of a proved key, the relay to households and the refresh of the state.
- `Alerts`: the content of alerts, the relay to households, proved keys, and the other jobs of the worker beyond their place in the queue. Alert ids forgotten by the bounded list may be stored again.
- `PushCooldown`: `resetAlertPushes`, which the server never calls and which forgets every stamp; the sticky flags and the polling of the admin mode.
- `HistoryStore`: pictures of push notifications, schema upgrades, the registration date and the hardware type of tokens, `setApprover`.
- HistoryStore.EventsTable.PurgeEvents: the SELECT that collects the pictures of the rows to go, and the deletion of those files.
- `IOChangeHub`: a nested `notify`, which the rule engine queues, and what callbacks do besides subscriptions and IOs.
- `EventText`: `event_raw` as JSON, the queue of events, and the list of event types.
- DiffCoverage.ParseDiff: a target path in double quotes is taken as it is; the script undoes the C style quoting of git.
- DiffCoverage.ScanExclusions: the marker of a line, and whether a reason follows it, are given and not searched for in its text.
- DiffCoverage.Evaluate: the heaps are kept by file and hold line numbers, without the text of the lines; a file that cannot be read is no part of the model.
- DiffCoverage.ParsePrintedDiff: paths that git quotes in C style; with lines of context the ranges, which the parser takes, hold those lines too.
- `DiffCoverage`: reading tracefiles, matching markers inside a line, which paths are gated, and the report.
- DiffCoverage.HeaderOf: digits are the ASCII ones; the regular expression takes every Unicode digit.
- DiffCoverage.HeaderExactly: as HeaderOf, for the ASCII digits.
- `Calendars`: hours and minutes, names, time zones and the setting of the system clock; years before 1.
- Option tables, HTTP routing, sockets, logging, mail and push transport, colours, sun times, audio and every driver: no part of this model.

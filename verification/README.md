# A verified model of Toxiproxy's core

Toxiproxy sits between a client and an upstream server and passes their bytes through chains of toxics, which
delay, throttle, slice, limit or drop them. Toxics are added, updated and removed while bytes are moving. This
project models the code that does this and proves what must hold of it in every run.

`dafny verify dfyconfig.toml` checks everything.

## The files

- `Wrappers.dfy`: `Option`, `Result`, `Min` and `Max`.
- `Bytes.dfy`: chunks, their concatenation, the subsequence order, and the contents of a pipeline in stream order.
- `Link.dfy`: `link.go:34-278`, `toxics/toxic.go:81-134` and every toxic's `Pipe` as a step system. A state holds channels
  (queue, capacity, closed flag), stubs (channels, state, program counter with the bytes in flight), the
  collection's chain and the controller, which walks through one `AddToxic`, `UpdateToxic` or `RemoveToxic` call
  with its interrupt handshakes, flush loop, drain loop and splice. A `Move` is the next observable action of one
  goroutine; an `Event` is a move that the capacities of the channels allow, or the hand-off of a chunk on an
  unbuffered channel; a legal list of events is one interleaving. Timers fire at any time, `WriteOutput` may time
  out at any time, random draws and toxicity are arbitrary. Panics of the Go code are the values of `fault`.
  `written`, `delivered`, `dropped`, `cut`, `tidy` and `reach` record history.
- `LinkInvariant.dfy`: the invariant. `LinkSteps.dfy`, `LinkPhases.dfy`, `LinkSplices.dfy`, `LinkBytes.dfy` and
  `LinkData.dfy` prove that every move keeps it, one move at a time.
- `LinkTheorems.dfy`: what follows for every run. `LinkRestarts.dfy`: what the three operations restart a stub with,
  as decided when they are called. `LinkOperations.dfy`: how they end. `LinkPipes.dfy`: what each toxic's goroutine
  does between two receives. `LinkMoves.dfy`: what every goroutine waits for, what moves put on record, and that no
  channel overflows. `LinkRest.dfy`: a link that can do nothing more has finished. `LinkPanic.dfy`: the two ways a
  goroutine can panic. `LinkLimit.dfy`: what limit_data passes on, over all its runs on one stub, and that what a
  timeout receives is never passed on.
- `Slicer.dfy`, `Bandwidth.dfy`, `Latency.dfy`, `LimitData.dfy`: the toxics' own algorithms, as loops.
- `IoChan.dfy`: the byte stream over a channel of blocks.
- `ToxicLists.dfy`, `ToxicCollection.dfy`: two ordered lists of names, the chains that refine them, and the links
  that are told of every change.
- `Proxy.dfy`, `ProxyCollection.dfy`: proxies, the addresses they listen on, and the collection.

## Where the code falls short of its promises

- `AddToxic` restarts the stub before the new one with `chain[i-1]`, where `i` counts the link's stubs
  (`link.go:186`), and `RemoveToxic` does the same at its place (`link.go:276`). On a partly closed link, stubs whose
  toxic was removed stay in `link.stubs` (`link.go:216`, `link.go:221-225`, `link.go:243-249`), so that the entry can
  be another toxic's, or none. `CallDecidesRestart` says what the restart gives the stub, decided when the operation
  is called: with no stub left behind its own toxic; for AddToxic with one left behind the new toxic; with two or
  more an index beyond the chain. `PanicsOf` says for every move of every run when it panics so, and
  `RunThatPanics` gives a run.
- A stub that is restarted with `limit_data` may have no state for it (`toxics/limit_data.go:15`): AddToxic makes a
  state for the new stub only (`link.go:181-183`), the other operations for none. `CallDecidesRestart` says exactly
  for which calls the restarted stub, and no other, will lack it: its state is absent, and AddToxic was called with a
  `limit_data` on a link with one stub left behind, UpdateToxic with a `limit_data`, or RemoveToxic at the place after
  a `limit_data` of the chain. The goroutine then panics if and only if its toxicity chooses the toxic (`PanicsOf`).
  `StateIsThereUnlessAtRisk`: no run without such a call panics so. `NoPanicUnlessLeftBehind`: neither panic happens
  while no stub is left behind. `RunWithoutState` gives a run.
- `ChanReader.Read` drops buffered bytes exactly if more than one read's worth but less than two is buffered and
  the channel is ready: line 66 of `stream/io_chan.go` compares with what is left in the buffer, and lines 73 and
  80 overwrite it. `ReadLaw` and `StreamLaw` are stated with that condition, `ReadsThatLose` gives an input, and
  `FixedSizeIsSafe` shows that copying with one buffer size never meets the condition.
- Two latency toxics in a row need not add up, because the first moves the timestamp by the sleep that was left when
  it received the chunk (`toxics/latency.go:43`), which is less than its delay for a chunk that waited in its queue.
  `LatenciesAddUp` says exactly when a chunk leaves the second toxic at its timestamp plus both delays, in terms of the
  second delay, the wait in the first queue, and what the second toxic still had to do. `LatenciesNeedNotAddUp` is
  an input: 10 ms twice and two chunks 5 ms apart; the second one takes 15 ms instead of 20.

## Model

| member | source | states |
|---|---|---|
| `Link.NewToxicLink` | link.go:34-113 | making stubs and channels one by one along the chain gives the wired initial link: stub i reads what stub i-1 writes, the channel into a latency toxic after the first place holds 1024 chunks and every other one none, stub i is started with entry i, limit_data with its state |
| `LinkTheorems.NothingReordered` | link.go:171-278 | in every run, with any toxics, time-outs and reconfiguration, bytes delivered and bytes held in channels, stubs and controller are a subsequence of the bytes written, and all of them unless a drop is on record |
| `LinkTheorems.LosslessReconfiguration` | CREATING_TOXICS.md:68-73 | with noop, latency, bandwidth, slicer and slow_close toxics and no time-out of WriteOutput, in every interleaving of reader, writer, stubs and any additions, updates and removals, delivered bytes followed by held bytes are exactly the written bytes |
| `LinkTheorems.EndOfStreamIsComplete` | link.go:234-257 | for the same runs, the output reader sees the end only after the input was closed and every written byte was delivered, also after removals that met a closed predecessor |
| `LinkTheorems.UpstreamEnded` | toxics/slow_close.go:11-30 | when nothing was cut short, an ended channel means that everything upstream of it has ended and closed |
| `LinkTheorems.ChannelsAreOwned` | toxics/toxic.go:129-134 | in every run no channel is closed twice or sent on after close, no stub runs two Pipes, update and removal indices are in range, and outside AddToxic no two stubs share an output |
| `LinkTheorems.InterruptAnswers` | toxics/toxic.go:110-118 | InterruptToxic answers true only when that stub's Pipe has returned and the stub is open, and false only when it is closed |
| `LinkTheorems.ParkedStaysParked` | toxics/toxic.go:81-90 | no move but the controller's own makes a stub whose Pipe has returned send, receive or close |
| `LinkTheorems.OpenLinksAreAligned` | link.go:273-276 | between operations, a link with no closed stub leads from link.input to link.output stub by stub, has one stub per chain entry, and stub i was started with entry i |
| `LinkTheorems.StubsCoverChain` | link.go:202-216 | also a partly closed link has at least as many stubs as the chain has entries |
| `LinkTheorems.TidyRunsNeverPanic` | link.go:171-192 | when every operation was begun while all stubs were open, no goroutine panics |
| `LinkTheorems.RunInv` | link.go:171-278 | the invariant (wiring, phases, handshakes, closing, ends, counts, alignment, bytes) holds after every legal run of a new link |
| `LinkData.MoveKeepsCore` | link.go:171-278 | each single move of any goroutine or of the controller keeps everything in the invariant but the bytes |
| `LinkData.MoveKeepsData` | link.go:171-278 | each single move keeps the stream of bytes, output end first |
| `LinkBytes.ReceiveLoad` | toxics/limit_data.go:22-42 | what a Pipe holds after receiving a chunk is that chunk, or a subsequence of it if the Pipe discards bytes |
| `LinkData.SpliceInKeepsData` | link.go:178-186 | putting the new stub between the last stub and its output moves no byte |
| `LinkData.SpliceOutKeepsData` | link.go:259-276 | taking a stub out after its input was drained moves no byte |
| `LinkSplices.SplicedOutMatches` | link.go:273-276 | after a stub was taken out and its predecessor restarted, stubs and chain match again |
| `LinkRestarts.AddRestarts` | link.go:178-186 | AddToxic starts the new stub with its toxic and state and restarts the last one with the chain's entry at that place, or runs beyond the chain |
| `LinkRestarts.RemoveRestarts` | link.go:273-276 | RemoveToxic takes the stub out and restarts the one before it with the chain's entry at that place |
| `LinkRestarts.RunsAreEven` | link.go:171-278 | in every run, while no stub was left behind by a removal, each open stub is the one of its entry in the chain, with the state its toxic needs |
| `LinkRestarts.RunGoesOn` | link.go:171-278 | between the call of an operation and its restart, whatever else happens, chain, stubs' toxics and the presence of their states stay |
| `LinkRestarts.CallDecidesRestart` | link.go:171-278 | for any operation called in any run that comes to its restart, the call decided which toxic the stub gets (its own if no stub was left behind, the new one for AddToxic if one was, an index beyond the chain if and only if two or more were), and whether that stub, and no other, starts limit_data without state |
| `LinkOperations.OperationsConclude` | link.go:171-278 | in every run, from the answer to an operation's interrupt to its return, whatever else happens: AddToxic ends with the new stub between the last one and its output, both started, or shut at a channel of its own if the last one is closed; UpdateToxic ends with the stub restarted with the toxic, or closed; RemoveToxic leaves a closed stub in place; closes the stub of a timeout and its output, and leaves it in place; otherwise takes the stub out, joins its neighbours and restarts the one before it, unless its flush meets the end, which it passes on by closing the stub |
| `LinkPipes.StubsKeepRounds` | toxics/toxic.go:81-90 | in every run every goroutine is where the history of its stub says: which toxic Run chose, what was received last, which chunks that toxic has sent for it, how many of its timers have fired, whether it was interrupted; so noop and slow_close send the chunk at once, latency after one timer, bandwidth in pieces of Rate * 100 bytes after one timer each, the slicer its slices with a timer after each, limit_data what its limit leaves, a timeout nothing; an interrupted one flushes exactly the rest, bandwidth under a time-out; and a stub is closed only by the end of its input (slow_close after one timer), a timeout's timer, or a limit that is reached |
| `LinkPipes.TimeoutPassesNothing` | toxics/timeout.go:13-45 | in every run a stub that runs a timeout holds and sends nothing; its timer is there if and only if its attribute is positive, and closes the stub; nothing else but the end of its input does |
| `LinkMoves.NoChannelOverflows` | link.go:55-67 | in every run no channel holds more chunks than its capacity |
| `LinkMoves.StubsWait` | toxics/toxic.go:92-106 | in every run what each goroutine waits for, exactly: its main select for a chunk, the end or a timeout's timer, its other selects for their timers, a send for room in the channel, for a limited time only where bandwidth flushes after an interrupt |
| `LinkMoves.InterruptsAreTaken` | toxics/toxic.go:108-118 | in every run an interrupt that is offered can be taken if and only if the Pipe is in one of its selects, and is refused if and only if the stub is closed |
| `LinkMoves.OperationsBegin` | link.go:171-278 | in every run an operation can begin whenever none is being carried out, at every place of the chain but the noop's |
| `LinkMoves.OperationWaits` | link.go:228-276 | in every run what an operation waits for, exactly: the answer to its interrupt, and in the flush and drain loops room for the chunk it holds, for a limited time, a chunk, or the end |
| `LinkMoves.ConnectionsWait` | link.go:115-169 | in every run what the reader of the input and the writer of the output connection wait for, exactly |
| `LinkMoves.WrittenIsOffered` | stream/io_chan.go:26-31 | the written bytes that the theorems speak of are the chunks the reader of the input connection has handed over, in order |
| `LinkMoves.RecordIsTrue` | toxics/toxic.go:92-106 | bytes are on record as dropped exactly if a WriteOutput timed out, a timeout received them, or a limit left them out; and the stream is on record as cut exactly if a stub is closed by the timer or the removal of a timeout, or by a limit |
| `LinkRest.RestIsComplete` | link.go:171-278 | no deadlock: in every run of a link on which nothing was cut short, if no goroutine and no operation can do anything more, the operation that was begun last has ended, no byte is held anywhere, every byte that was not dropped is delivered, the reader has seen the end if and only if the input was closed, and every stub on the way is then closed, and otherwise waits for a chunk |
| `LinkRest.LosslessLinkDelivers` | CREATING_TOXICS.md:68-73 | with toxics that pass every byte on and no time-out of WriteOutput, whatever is added, updated and removed and in every interleaving, a link that can do nothing more has delivered exactly the bytes written, and the end if the input was closed |
| `LinkPanic.PanicsOf` | link.go:186-186 | in every run a move indexes beyond the chain if and only if it is AddToxic's restart with at least two stubs left behind, and misses a state if and only if it is a Run that chooses limit_data on a stub without it |
| `LinkPanic.NoPanicUnlessLeftBehind` | link.go:171-278 | in every run a goroutine panics only if a removal has left a stub behind |
| `LinkPanic.StateIsThereUnlessAtRisk` | toxics/limit_data.go:14-16 | in every run without a call at risk, no limit_data lacks its state |
| `LinkPanic.RunWithoutState` | toxics/limit_data.go:14-16 | a run from a fresh link, with one removal and one addition, in which limit_data panics for lack of its state |
| `LinkPanic.RunThatPanics` | link.go:171-192 | a run from a fresh link, with two removals and one addition, that reaches the index panic, for any toxic added |
| `Slicer.MiddleIsInside` | toxics/slicer.go:40-44 | whatever is drawn, a split point leaves both halves with at least floor((A+V+1)/2) - V bytes, at least one |
| `Slicer.MiddleRanges` | toxics/slicer.go:40-44 | a packet is split at its half plus the draw less V: every offset from -V to V-1 is some draw's and no other is; without variation exactly at its half |
| `Slicer.MiddleIsCut` | toxics/slicer.go:36-47 | a packet longer than A+V is cut at that point: a slice ends and the next one begins there |
| `Slicer.HalvesEvenly` | toxics/slicer.go:31-49 | without variation a packet of A * 2^n bytes becomes slices of A bytes |
| `Slicer.OffsetsTile` | toxics/slicer.go:31-49 | for any draws the recursion ends and its pairs tile [start, end) without gap or overlap, no slice longer than A+V, and none shorter than the bound above once a split happened |
| `Slicer.SliceCount` | toxics/slicer.go:31-49 | a packet of len bytes is one slice if and only if len <= A+V; otherwise the number of slices lies between len/(A+V) and len/least |
| `Slicer.PieceAt` | toxics/slicer.go:63-66 | slice k is the data between its two offsets, and the slices up to it are the data up to its end |
| `Slicer.FlushIsRest` | toxics/slicer.go:70-75 | what an interrupt after any slice flushes completes the data |
| `Slicer.EmissionIsData` | toxics/slicer.go:56-79 | whichever pause is interrupted, the chunks sent concatenate to the data |
| `Slicer.Emit` | toxics/slicer.go:56-79 | the loop sends the slices of the chunk with its timestamp, and after an interrupt in pause `stop` the first stop + 1 slices and the rest in one chunk |
| `Bandwidth.LoggedWithinRate` | toxics/bandwidth.go:42-66 | one send more keeps the rate at every send so far if the total volume is within it |
| `Bandwidth.SendPiece` | toxics/bandwidth.go:42-50 | a 100 ms interval of the splitting loop keeps bytes, rate and debt in balance |
| `Bandwidth.SendRest` | toxics/bandwidth.go:61-66 | waiting out the debt and sending the rest of a chunk pays exactly its charge |
| `Bandwidth.Pipe` | toxics/bandwidth.go:25-66 | all bytes are sent in order, as the list of pieces that the chunks are split into, each with the chunk it is of; at every send B * 10^6 <= Rate * (elapsed + received chunks); each send is made when it is due, which is the charges floor(len * 10^6 / Rate) so far on top of all waiting for chunks and all blocked sends, or late by what the timers so far were late; and so for the whole run: idle time earns no burst |
| `Bandwidth.SendsAreSplit` | toxics/bandwidth.go:42-66 | send j of a chunk is its bytes from j * Rate * 100 on, Rate * 100 of them if more follow, which the next send then goes on with, or all that is left, after which the next send is of the next chunk |
| `Bandwidth.PieceTimes` | toxics/bandwidth.go:42-66 | with exact timers, an output that never blocks and no debt, send j of a chunk that more follow is made (j + 1) * 100 ms after the chunk was received, and its last one when its charge floor(len * 10^6 / Rate) is over |
| `Bandwidth.ExactTimers` | toxics/bandwidth.go:42-66 | with exact timers every send is made exactly when it is due, and with an output that never blocks the waiting, beside that for chunks, is exactly the sum of floor(len * 10^6 / Rate) |
| `Latency.Delay` | toxics/latency.go:19-28 | the delay lies within the jitter of the latency |
| `Latency.DelayRanges` | toxics/latency.go:19-28 | with jitter J > 0 the delay is Latency plus the draw less J milliseconds: every number of milliseconds from Latency - J to Latency + J - 1 is some draw's and no other is; without jitter it is exactly Latency |
| `Latency.Pipe` | toxics/latency.go:30-52 | the loop passes chunk i on at its exit time, with its timestamp moved by the sleep that was left when it was received, whenever chunks arrive and whatever their timestamps are |
| `Latency.ExitIsLatestDue` | toxics/latency.go:30-52 | the exit time of chunk i is the maximum over j <= i of the later of chunk j's arrival and its timestamp plus its delay |
| `Latency.LatencyDoesNotAccumulate` | toxics/latency.go:30-52 | however many chunks queue, each leaves between its timestamp plus max(0, Latency-J) and plus max(0, Latency+J) |
| `Latency.StampIsExitTime` | toxics/latency.go:40-44 | for chunks that arrive at their timestamps, the new timestamp is the exit time if and only if the chunk did not queue and its delay is not negative |
| `Latency.InARow` | toxics/latency.go:30-52 | two Pipes, one after the other, let chunk i go at Exit2 |
| `Latency.LatenciesAddUp` | toxics/latency.go:40-44 | the exit from the second of two toxics is the first timestamp plus both delays if and only if the second delay is not negative, neither the wait in the first queue nor the rest of the second one's work exceeds both delays, and the wait is zero, the second delay is zero, or one of the two equals both delays |
| `Latency.LatenciesNeedNotAddUp` | toxics/latency.go:40-44 | 10 ms twice, two chunks 5 ms apart: the second leaves 5 ms before its timestamp plus both delays |
| `LimitData.Pipe` | toxics/limit_data.go:14-52 | one run passes on exactly the bytes the limit still allows, adds them to the state, and closes the stub at the first chunk after which the limit is reached |
| `LimitData.Runs` | toxics/limit_data.go:14-52 | over any sequence of runs on one stub the output is a prefix of what was consumed, all of it while the stub is open, and with one limit throughout exactly the first min(consumed, max(Bytes, 0)) bytes |
| `LinkLimit.RoundIsOfLoop` | toxics/limit_data.go:22-49 | a receive of a stub running limit_data, and the send that may follow, sends what `LimitData.Passed` says, counts it, and closes exactly when the limit is reached, as a round of `LimitData.Pipe` does |
| `LinkLimit.LimitHolds` | toxics/limit_data.go:14-52 | in every run of a link, over all runs of limit_data on one stub, across interrupts, additions, updates and removals: what it has sent and is sending is a prefix of what it received there, all of it unless a limit it ran with is reached and no more than the largest limit it ran with, so with one limit exactly the first min(received, max(Bytes, 0)) bytes; its state counts the bytes sent; and while it is not about to close nothing is withheld |
| `LinkLimit.GivenIsTaken` | toxics/timeout.go:24-42 | in every run of a link, over all toxics a stub runs, what its goroutine has sent and holds is a subsequence of what it received with toxics that are no timeout: what a timeout receives is never sent |
| `IoChan.ReadEnds` | stream/io_chan.go:60-100 | from the state before a read: it takes a chunk exactly if room is left and one is there, or it waited for one; without an error it returns min(size, buffered bytes and that chunk's) bytes; exactly when it ends with the end and when with an interrupt, then without bytes; and what it leaves of the queue |
| `IoChan.ReadLaw` | stream/io_chan.go:60-100 | returned bytes followed by unread bytes are the unread bytes before (and a chunk that arrived meanwhile) if and only if the read did not begin with more than one and less than two reads' worth buffered and the channel ready; otherwise exactly the rest of the buffer is lost |
| `IoChan.EndIsPermanent` | stream/io_chan.go:60-63 | an interrupted read returns and changes nothing; the end is reported when nothing is unread, and for ever after |
| `IoChan.StreamLaw` | stream/io_chan.go:60-100 | over any script of writes, reads, interrupts and a close, returned and unread bytes are the written bytes if and only if no read began in a losing state, and then the end comes after all of them |
| `IoChan.FixedSizeIsSafe` | stream/io_chan.go:60-100 | reads of one size over blocks no longer than it never lose a byte |
| `IoChan.ReadsThatLose` | stream/io_chan.go:66-81 | one byte read and then three out of a five-byte block on a closed channel lose the last byte |
| `IoChan.ChanReader.Read` | stream/io_chan.go:60-100 | the method that fills the caller's array does what ReadFrom says: bytes, error, buffer and channel |
| `IoChan.ChanWriter.Write` | stream/io_chan.go:26-31 | the whole block is appended to the channel |
| `IoChan.Session` | stream/io_chan.go:20-100 | a writer and a reader on a new channel, driven by a script, return what Play says |
| `ToxicLists.NamesStayDistinct` | toxic_collection.go:83-132 | after any requests, no name is used twice in either direction or across both |
| `ToxicLists.FoundExactlyWhenAdded` | toxic_collection.go:83-184 | after any requests, a name is found if and only if some well-formed addition of it was followed by no removal of it and no reset |
| `ToxicLists.WithoutKeepsOrder` | toxic_collection.go:272-276 | the survivors of a removal keep their order |
| `ToxicLists.WithoutIsCut` | toxic_collection.go:272-273 | cutting an entry out at its index removes exactly its name |
| `ToxicCollection.ToxicCollection.FindToxicByName` | toxic_collection.go:215-225 | it finds a toxic if and only if the name is in use, and the toxic stands where its Index says |
| `ToxicCollection.ToxicCollection.AddToxicJson` | toxic_collection.go:83-132 | for each error the exact condition, in the source's order, decoding errors before and after the checks among them, with nothing changed; or a new toxic with its name, type_stream by default, and the decoded attributes at the end of its chain, which every link of its direction is called to append |
| `ToxicCollection.ToxicCollection.UpdateToxicJson` | toxic_collection.go:134-160 | an update moves and renames nothing and changes attributes and toxicity of the named toxic only; a body that fails to decode may have changed attributes and calls no link |
| `ToxicCollection.ToxicCollection.RemoveToxic` | toxic_collection.go:162-184 | the name is gone from both lists, everything else stays in order, the removed toxic has Index -1, and every link of its direction is called to remove its place; an unknown name changes nothing |
| `ToxicCollection.ToxicCollection.ResetToxics` | toxic_collection.go:47-57 | the loop ends and leaves only the noop in both chains |
| `ToxicCollection.ToxicCollection.StartLink` | toxic_collection.go:186-206 | a link starts with the chain of its direction at that time |
| `ToxicCollection.ToxicCollection.CallLinks` | toxic_collection.go:232-243 | each link of the direction gets the call once, the others none |
| `ToxicCollection.CallsFollow` | toxic_collection.go:227-300 | if a chain changes and all its links are called accordingly, the calls of every link, whenever it was started, still lead from the chain it started with to the present one, each at a place in range and never the noop's |
| `ToxicCollection.ToxicCollection.ChainAddToxic` | toxic_collection.go:227-244 | the toxic is appended and caches its position, and exactly the links of its direction are called to append it |
| `ToxicCollection.ToxicCollection.ChainUpdateToxic` | toxic_collection.go:246-261 | writing the toxic back at its cached Index changes no chain, and exactly the links of its direction are called to update that place |
| `ToxicCollection.ToxicCollection.ChainRemoveToxic` | toxic_collection.go:263-300 | exactly the toxic is cut out of its chain, the ones behind it are renumbered, and exactly the links of its direction are called to remove its old place |
| `ToxicCollection.CutFits` | toxic_collection.go:272-273 | cutting a toxic out at its Index is removing its name from the two lists, and keeps chains in shape and names distinct |
| `ToxicCollection.AppendFits` | toxic_collection.go:227-231 | appending a toxic with an unused name keeps chains in shape and names distinct |
| `ToxicCollection.Serve` | toxic_collection.go:83-213 | any list of requests, with links started and removed between them, leaves the two lists the requests describe: noop first, Index i at position i, chain direction right, names unique; and every link has followed its chain |
| `ToxicCollection.Answer` | toxic_collection.go:83-213 | one request or connection: what it does to the two lists, to the links there are, and to attributes and toxicity, which only an update of that name changes |
| `Proxy.Proxy.Start` | proxy.go:233-244 | a start binds one address nobody had, which the system gave for the Listen text, and shows it in Listen, or fails with nothing bound and nothing changed |
| `Proxy.Proxy.Accept` | proxy.go:216-220 | both ends of a new client are on the list of connections, open |
| `Proxy.Proxy.Stop` | proxy.go:247-266 | a stop releases exactly the address the proxy had and closes every connection on the list |
| `Proxy.Proxy.Differs` | proxy.go:139-150 | it compares Upstream and the resolved listen text, and fails if that does not resolve |
| `Proxy.Proxy.Update` | proxy.go:80-102 | an update of a proxy that differs closes its connections and takes over the new Listen and Upstream, also if it is then stopped or fails to bind; an enabled one ends at an address that the system gave for the new text; one that fits keeps its address; exactly the proxy's own address changes hands; a failed bind leaves it stopped, a failed resolution changes nothing |
| `ProxyCollection.Exchange` | proxy_collection.go:46-72 | when one name exchanges its address for one nobody else has, bound addresses stay exactly the Listen addresses of enabled proxies, pairwise distinct |
| `ProxyCollection.ProxyCollection.Add` | proxy_collection.go:26-44 | a duplicate or a failed start leaves collection, proxy and bound addresses as they were; else the proxy is registered under its name and runs if asked |
| `ProxyCollection.ProxyCollection.AddOrReplace` | proxy_collection.go:46-72 | an existing proxy that fits is returned and nothing is touched; one that does not is stopped and replaced, or stays, stopped, when the new one does not start |
| `ProxyCollection.ProxyCollection.PopulateJson` | proxy_collection.go:74-114 | incomplete input is refused before anything happens; a request the collection already satisfies changes nothing; otherwise some returned proxy is new; after a failure the returned proxies are those of the entries before the one that failed, in place under their names, and it failed to resolve exactly if a proxy of that name was there and its text does not resolve; proxies of other names are not touched; returned ones listen at an address that was given for the entry's text or that the text resolves to |
| `ProxyCollection.ProxyCollection.PopulateTwice` | proxy_collection.go:102-113 | with distinct names, repeating a successful request returns the same proxies if and only if every listen text resolves to the address its proxy ended up with; settings and bound addresses are then those the first request left |
| `ProxyCollection.ProxyCollection.Remove` | proxy_collection.go:135-147 | the proxy is stopped, its address released, its name free |
| `ProxyCollection.ProxyCollection.Clear` | proxy_collection.go:149-160 | the loop ends with no proxy, every old one stopped and no address bound |
| `ProxyCollection.ProxyCollection.StartByName` | proxy.go:73-78 | starting a member of the collection binds its address or changes nothing |
| `ProxyCollection.ProxyCollection.StopMember` | proxy.go:104-109 | stopping a member releases its address and changes nothing else |
| `ProxyCollection.ProxyCollection.UpdateByName` | api.go:296-331 | a client's update of one proxy touches no other and leaks no address; the proxy ends with the new Upstream and, if it did not fit, with the new Listen or an address given for it |
| `ProxyCollection.ProxyCollection.Answer` | proxy_collection.go:26-160 | what one call of a client does to the settings of all proxies: it touches the one it names, those of a populate request, or, when it clears, all |
| `ProxyCollection.Serve` | proxy_collection.go:26-160 | after any sequence of calls, failed ones included, each key is its proxy's name and the bound addresses are exactly those of the enabled proxies, pairwise distinct |

## Left out

- `link.go` is modelled on values: a state is replaced, not updated in place, so aliasing between Go slices
  (`append` on `link.stubs`) is not captured. Channels are shared by index, as in the source.
- A proxy has many links and the collection calls them at the same time; `Link.dfy` is one link, since links share
  only the chain, which changes when an operation begins and is fixed until it ends. That each link gets exactly the
  calls its chain went through, at places in range, is in `ToxicCollection.dfy`.
- Fairness and termination: `RestIsComplete` says what holds when a link can do nothing more, not that it comes to
  that. It need not: a bandwidth toxic with Rate 0 sends empty chunks for ever. After a cut (a timeout or limit_data
  has closed a stub whose input goes on) a stub upstream can block for ever on its send, and a link at rest may hold
  bytes. The termination of `chunk`, `ResetToxics` and `Clear` is proved.
- Timestamps of chunks are in the models of latency and slicer, not in `Link.dfy`.
- Attributes are fixed while a Pipe runs; the write of `UpdateToxicJson` into a running toxic is a data race in
  the source.
- The slicer with SizeVariation >= AverageSize and bandwidth with a negative Rate are outside their documented
  domain. `Bandwidth.Pipe`, `Latency.Pipe` and `LimitData.Runs` follow uninterrupted runs, or runs interrupted
  between chunks, and `Bandwidth.Pipe` has a positive Rate; interrupts at every other point, and Rate 0, are in
  `Link.dfy`.
- Overflow of 64-bit durations and byte counters, and the precision of timers.
- `LimitData.Runs` is the case of toxicity 1; in `LinkLimit.LimitHolds` a run on the stub may draw the noop, whose
  bytes are not counted.
- reset_peer, parsing of directions, the example toxics, JSON, HTTP handlers, command line, client, metrics, logs.
- Sockets and the tomb: listening is a set of bound addresses, connections are names that are open or closed,
  stopping releases the address at once, and a bind picks any address that is not in use and that the system may give
  for the text, a relation that is fixed with the network, or fails. Address resolution is a fixed function. That a link takes its connection off the list is not modelled.
- ProxyCollection.ProxyCollection.Add: a proxy that was started before it is handed to the collection is excluded. The
  source answers AlreadyStarted if it is to be started, and registers it otherwise. No caller in the repository does
  this.
- ProxyCollection.ProxyCollection.AddOrReplace: the same.
- Locks: calls on one collection or proxy run one at a time, as its lock makes them.

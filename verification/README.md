# A model of the goproxy core

The proxy's concurrent and stateful parts, modelled in Dafny, with proofs of what they promise.
`dafny verify dfyconfig.toml` checks all of it.

| files | subject |
|---|---|
| `PersistConn`, `PersistConnSafety`, `PersistConnProgress`, `PersistConnAnswers`, `PersistConnBodies`, `PersistConnRuns` | one connection of the non-HTTP round tripper: `roundTrip`, `readLoop`, `writeLoop` and the body reader over their channels |
| `DialRace` | `getConn`: the dial, the waiting caller, the heir of an abandoned dial and the cancel function |
| `PooledConn`, `PooledConnTheorems`, `PooledConnAnswers` | who owns a reusable connection of `transport/transport.go`: any number of users, `readLoop`, the pool |
| `IdlePool`, `ConnLRU` | the pool of idle connections, the LRU list and the in-place removal |
| `CertCache`, `CertCacheSafety`, `CertCacheTheorems`, `CertCacheAnswers` | the certificate cache under any number of threads, with its two kinds of lock |
| `Subdomains` | `GetSubdomains` |
| `CounterStream` | the counter-mode byte stream |
| `RegretReader` | the push-back reader |
| `Chunked`, `ResponseWriter` | chunked framing against a decoder for section 4.1 of RFC 7230, and the response writer |
| `Dispatch`, `DispatchTheorems`, `DispatchCounts`, `DispatchAnswers` | the handler chains |

The concurrent parts are step relations: a state holds the program counters of the goroutines, the
fields and the channel contents, and an action is one channel operation, one critical section that
cannot block, or one answer of the network, of a timer or of the caller. Their theorems speak of every
interleaving of any length. What such a run answers is stated by a story: a small record told by the
actions alone, or by what a call finds at its own steps, with which every state of the run is proved to
agree. The sequential parts are classes and loops; each method is proved to do
what a function of the old state says, and the lemmas are about that function.

## Where the code differs from its comments

- Pool ownership: `bodyEOFSignal` promises to run `fn` at most once (transport/transport.go:741-743).
  `Read` clears `es.fn` only after `fn` has returned, and `fn` ends by waking `readLoop`. `readLoop` can
  take the next request and close the old body before that, which runs `fn` again: the connection goes
  back to the pool while a request is on it, and `readLoop` waits for itself. The bound on puts survives,
  exclusive use does not. `SharedByTwo` is such a run, `DoubledWhenHookNotCleared` the exact condition.
- Handlers: `handlers.go` says that FORWARD skips the remaining handlers. The `break` leaves the `switch`
  and not the loop, so FORWARD without a response is NEXT (`ForwardIsNext`, `ForwardSkipsIffResponse`; `ForwardDoesNotSkip`
  is an example).
  MITM in a connect handler forwards, and DONE there is accepted and leaves the hijacked connection open.
- `GetSubdomains`: for a private suffix of three or more labels the labels are joined without dots
  (`RightIffPublicOrShort`; `DotsAreLostHere` is an example).
- `Forget` during a replay drops the bytes still to be replayed (`AgreesIffForgetsAreClean`; `ForgetSkipsTwo` is an
  example).
- An empty `Write` on a chunked `notsodumbResponseWriter` ends the body (`ChunkedBodyDecodesIffNoEmptyWrite`;
  `EmptyWriteLosesTheBody` is an example).
- The fixed-length branches send two bytes behind the body (`ForwardBody`, `FixedLengthResponse`).
- A Config that fails its re-verification is handed out again unless the upstream chain is bad
  (`FailedConfigKeptUnlessUpstreamBad`).
- `Seed` does not discard the rest of the current block (`SeedKeepsCurrentBlock`).
- The done chain is not started for a tunnelled request that all request handlers let pass, but it is for
  one that a handler rejects or ends with DONE (`DispatchedOnce`, `RequestOutcome`).

## Model

| member | source | states |
|---|---|---|
| `PersistConnSafety.Step` | nonhttproundtripper.go:960-1545 | every action of the caller, roundTrip, readLoop, writeLoop or the body calls keeps the invariant of the connection |
| `PersistConnSafety.RunKeepsInv` | nonhttproundtripper.go:960-1545 | so does every interleaving of any length |
| `PersistConnSafety.ClosedExactlyOnce` | nonhttproundtripper.go:1524-1545 | in every reachable state closed is set iff closech is closed iff broken is set; the panics of closeLocked and roundTrip are unreachable and numExpectedResponses is never negative |
| `PersistConnSafety.FirstCloseErrorKept` | nonhttproundtripper.go:1524-1545 | once closed is set no step changes it |
| `PersistConnSafety.NothingWrittenIsSound` | nonhttproundtripper.go:921-958 | when roundTrip returns nothingWrittenError writeLoop has ended and the connection accepted no byte; when it returns the connection-broken error it accepted some |
| `PersistConnSafety.WriterStaysDone` | nonhttproundtripper.go:1224-1265 | after writeLoopDone no step changes the number of accepted bytes |
| `PersistConnSafety.NothingIsWrittenLater` | nonhttproundtripper.go:1224-1265 | nor does any continuation of the run |
| `PersistConnSafety.BodyFunctionsRunOnce` | nonhttproundtripper.go:1590-1635 | over all interleavings of Read and Close fn and earlyCloseFn run at most once each, and a sender on waitForBodyRead always finds room |
| `PersistConnSafety.OneReaderPerTrue` | nonhttproundtripper.go:1072-1146 | at most one reader waits on eofc, and until eofc is closed exactly one true is queued for it or held by readLoop |
| `PersistConnProgress.BlockedIsServed` | nonhttproundtripper.go:960-1151 | deadlock freedom: a goroutine blocked on a channel or on es.mu waits, through a path of at most two waits for the other end of a channel or the holder of es.mu, for a goroutine that can step or that only the network, a timer or the caller holds; in a body that ended on an open connection too |
| `PersistConnProgress.EofcIsServed` | nonhttproundtripper.go:1118-1134 | a reader waiting on eofc finds readLoop, in wroteRequest or elsewhere, on its way to the send or to the close of eofc |
| `PersistConnProgress.CallerMoves` | nonhttproundtripper.go:1362-1493 | roundTrip blocks only in its select and on writeLoopDone; the sends on writech and reqch never block |
| `PersistConnProgress.ReaderMoves` | nonhttproundtripper.go:960-1151 | readLoop blocks only when it offers a reply that roundTrip is not yet there to take, or on reqch before a request was sent |
| `PersistConnProgress.WriterMoves` | nonhttproundtripper.go:1224-1265 | writeLoop blocks only while it has no work on an open connection; the sends on writeErrCh and wr.ch never block |
| `PersistConnProgress.CallMoves` | nonhttproundtripper.go:1590-1635 | a body call that has es.mu, or finds it free, blocks only on eofc |
| `PersistConnProgress.RunIsBounded` | nonhttproundtripper.go:960-1493 | every step lowers a rank, so a run is as long as its network writes and body calls allow, and no longer |
| `PersistConnProgress.EveryRunEnds` | nonhttproundtripper.go:960-1493 | from dial to end at most 69 steps, plus 2 for each conn.Write and 9 for each body call: nothing spins |
| `PersistConnProgress.ClosedConnectionDrains` | nonhttproundtripper.go:1118-1148 | once the connection is closed and nobody can step, every goroutine has finished, is inside a call on the closed connection or waits through a path for one that is: no leak |
| `PersistConnRuns.BodyEndsOnOpenConnection` | nonhttproundtripper.go:1122-1134 | the ordinary response is a run of the model: the body ends, the connection does not, and readLoop is in wroteRequest while the reader holds es.mu and waits on eofc |
| `PersistConnRuns.OrdinaryRunEnds` | nonhttproundtripper.go:1122-1151 | from there the reader is released, both loops end, and the connection closes with the refusal of the pool |
| `PersistConnRuns.EarlyCloseEnds` | nonhttproundtripper.go:1613-1627 | a body closed unread: readLoop hears false, does not ask wroteRequest, and the connection ends |
| `PersistConnRuns.CanceledReturns` | nonhttproundtripper.go:863-871 | a request cancelled from outside before anything was written returns the error of the cancel |
| `PersistConnAnswers.ReturnsWhatIsTold` | nonhttproundtripper.go:1362-1493 | what roundTrip returns, what the connection is closed with and which cancel reached it are determined by the actions of the run, by a story that does not use the step functions |
| `PersistConnAnswers.DeliveredIsReturned` | nonhttproundtripper.go:1059-1110 | a response that was read and then delivered is what roundTrip returns, with a body if and only if it was read with one |
| `PersistConnAnswers.ReturnedWasDelivered` | nonhttproundtripper.go:1472-1483 | a response is returned only if such a one was read and delivered after that |
| `PersistConnAnswers.TimerIsTimeout` | nonhttproundtripper.go:1466-1472 | the response header timer decides for the timeout error |
| `PersistConnAnswers.CancelWins` | nonhttproundtripper.go:921-931 | an error mapped after a cancel has reached the connection becomes the last such cancel's own error |
| `PersistConnAnswers.WaitedMeansCounted` | nonhttproundtripper.go:946-957 | an outcome that waited for writeLoop is nothingWrittenError iff no byte was accepted, and the connection-broken error iff some was |
| `PersistConnAnswers.SelectsWhatHappened` | nonhttproundtripper.go:1440-1492 | in its select roundTrip can take the close iff the connection is closed, the timer iff a write succeeded and a timeout is set, Cancel and Done iff they happened and were not yet taken |
| `PersistConnBodies.FailedReadEndsBody` | nonhttproundtripper.go:1590-1611 | a Read whose body failed does not return before fn was run, once, and the first such error noted |
| `PersistConnBodies.LoopHearsWhatWasSent` | nonhttproundtripper.go:1072-1100 | readLoop takes the values of fn and earlyCloseFn in the order they were sent, and releases a reader only after a true |
| `PersistConnBodies.WriterAskedIffReusable` | nonhttproundtripper.go:1122-1130 | wroteRequest is asked exactly when the body is read to its end, the response was not the last and the connection has not reported its end |
| `PersistConnBodies.NoReadAfterEnd` | nonhttproundtripper.go:1590-1600 | after a Close or a noted error no new Read reads the body |
| `PersistConnProgress.OneSlotHangs` | nonhttproundtripper.go:979-980 | with one slot instead of two in waitForBodyRead a Close during an unlocked Read can leave the body hung with es.mu held |
| `DialRace.ConnectionIsConserved` | nonhttproundtripper.go:416-501 | on every race a dialed connection is in exactly one place: offered, held, in use or closed |
| `DialRace.CancelNeverBlocks` | nonhttproundtripper.go:371-401 | the cancel function of the dial runs at most once and its send never blocks |
| `DialRace.SettledMeansAccounted` | nonhttproundtripper.go:416-501 | when nobody in the race can move the dial's send was received, and a dialed connection is with the caller or closed, never both and never neither |
| `DialRace.UncanceledIsUsed` | nonhttproundtripper.go:416-455 | a dial that succeeds in a race that nobody cancels ends in use, and nothing is closed |
| `DialRace.UsedIffNotTakenBefore` | nonhttproundtripper.go:1364-1367 | roundTrip goes on with the connection iff nobody took the canceler before it put in its own; else the connection is closed |
| `DialRace.NotUsedWithoutReplace` | nonhttproundtripper.go:1364-1367 | and never without having put in its own |
| `DialRace.GivenUpIsClosed` | nonhttproundtripper.go:440-501 | a caller that gives up, or whose dial fails, ends without a connection; one dialed all the same is closed |
| `DialRace.CanceledDoesNotWait` | nonhttproundtripper.go:484-500 | a request whose canceler was taken does not go on waiting for its dial |
| `DialRace.ClosedDoesNotWait` | nonhttproundtripper.go:484-492 | nor does one whose Cancel or context has ended |
| `DialRace.NoCancelerLeft` | nonhttproundtripper.go:371-401 | a request that got no connection leaves no canceler behind |
| `DialRace.RunIsBounded` | nonhttproundtripper.go:416-501 | every run of the race has at most 12 steps |
| `PooledConnTheorems.Step` | transport/transport.go:561-774 | every step of any number of users, readLoop and the pool keeps the ownership invariant of a pooled connection |
| `PooledConnTheorems.PutsAreBounded` | transport/transport.go:268-317 | over all interleavings the puts of a connection never exceed one plus its gets, and it is in idleConn at most once |
| `PooledConnTheorems.OneUser` | transport/transport.go:561-702 | until readLoop has run some fn a second time, at most one request uses the connection and none does while it is idle |
| `PooledConnTheorems.SharedIffDoubled` | transport/transport.go:612-616 | an idle connection is in use by somebody if and only if readLoop has run fn again |
| `PooledConnTheorems.DoubledWhenHookNotCleared` | transport/transport.go:580-587 | that happens exactly when readLoop closes the last body between the send on waitForBodyRead in Read and the es.fn = nil behind it |
| `PooledConnTheorems.HookRunsOnceIffNotDoubled` | transport/transport.go:741-774 | the comment's at most once holds for fn if and only if that has not happened |
| `PooledConnTheorems.SharedByTwo` | transport/transport.go:580-616 | a run in which it happens: fn runs twice, and a second user gets the connection while the first one's request is being served |
| `PooledConnTheorems.DoubledNeverReplies` | transport/transport.go:626-635 | after it readLoop waits for itself for ever and the request it had taken is never answered |
| `PooledConnTheorems.ExpectedIsPending` | transport/transport.go:566-577 | numExpectedResponses is never negative and zero exactly when no user is between its first write and its answer, so only then readLoop closes the connection as idle |
| `PooledConnTheorems.QueueIsShort` | transport/transport.go:362 | while readLoop serves, reqch never holds more than one of its 50 requests |
| `PooledConnAnswers.WaitersAreAccounted` | transport/transport.go:636-707 | a user waits for its answer iff its request is queued, in readLoop's hand or answered in its channel: no request is lost and nobody else has a reply |
| `PooledConnAnswers.WaitersAreInOnePlace` | transport/transport.go:636-707 | and, while readLoop serves, in one of these places only |
| `PooledConnAnswers.ConnectionIsNotLost` | transport/transport.go:606-648 | a connection that nothing broke and no response ended is idle, or exactly one request has the right to put it back and its open body has fn still to run |
| `PooledConnAnswers.BrokenIffBroken` | transport/transport.go:566-585 | the connection is broken iff a write or a read failed, a put was refused, it was closed, or readLoop peeked while no request was between its write and its answer |
| `PooledConnAnswers.BrokenIsRetired` | transport/transport.go:268-317 | a broken connection gets no new user and is not put back |
| `PooledConnAnswers.ClosedBodyRanFn` | transport/transport.go:763-774 | unless the inner Close fails, a reader whose body is closed has run fn or has none |
| `IdlePool.PopTakesLastLive` | transport/transport.go:301-316 | the discard loop returns the last connection that is not broken and drops exactly the broken ones above it |
| `IdlePool.PoolIsLifo` | transport/transport.go:291-317 | repeated gets return the live connections of a bucket in the reverse order of their puts |
| `IdlePool.Transport.PutIdleConn` | transport/transport.go:268-289 | true iff keep-alives are on, the connection is not broken and the bucket has room (2 for a setting of 0), and then it is appended; false leaves the pool alone and the connection broken; every key keeps 1 to max connections of its own |
| `IdlePool.Transport.GetIdleConn` | transport/transport.go:291-317 | returns and removes what the pop of the bucket says, deletes an empty bucket, touches no other key, and ends |
| `IdlePool.Transport.CloseIdleConnections` | transport/transport.go:212-224 | breaks every idle connection and empties the pool |
| `ConnLRU.OldestIsLast` | nonhttproundtripper.go:1700-1737 | after every legal history of add, remove and removeOldest the list has no duplicates, is ordered by time of addition, and ends in the earliest-added survivor |
| `ConnLRU.HistoryStep` | nonhttproundtripper.go:1706-1733 | one operation keeps this |
| `ConnLRU.WithoutSplits` | nonhttproundtripper.go:898-910 | removing a connection leaves what is before and behind it in order, and no other copy of it |
| `ConnLRU.LRU.Add` | nonhttproundtripper.go:1706-1716 | puts the connection in front; map keys and list stay equal |
| `ConnLRU.LRU.RemoveOldest` | nonhttproundtripper.go:1718-1724 | takes the last one out of list and map and returns it |
| `ConnLRU.LRU.Remove` | nonhttproundtripper.go:1727-1732 | takes the connection out of list and map, if it is there |
| `ConnLRU.IdleConns.RemoveIdleConnLocked` | nonhttproundtripper.go:886-912 | removes that connection from the LRU and from its bucket, keeps the order of the rest by sliding it down in place, deletes the key when the bucket empties, leaves every other bucket as it was, and keeps the whole object valid |
| `ConnLRU.SlideDown` | nonhttproundtripper.go:905-907 | the copy and reslice drop exactly the i-th connection |
| `CertCacheSafety.Step` | signer.go:283-766 | every step of any number of Cert, FlushCert and GetTestCertificate calls keeps the invariant of the cache and its locks |
| `CertCacheTheorems.RunKeepsInv` | signer.go:224-766 | so does every interleaving |
| `CertCacheTheorems.PublishedIsComplete` | signer.go:598-640 | every entry of the table for h has a Config, and the names of that Config are exactly {h}, with its one certificate |
| `CertCacheTheorems.NeverNilWithoutError` | signer.go:315-373 | Cert and GetTestCertificate return an error or a complete Config for their host; the crash on a nil Config is unreachable |
| `CertCacheTheorems.ConfigsAreImmutable` | signer.go:604-632 | a Config that has its certificate and its name is never changed again in any field |
| `CertCacheTheorems.EmptyHandedWaiters` | signer.go:308-326 | no thread waits for a host lock while it holds a host lock or any part of certmu |
| `CertCacheTheorems.OneHostLock` | signer.go:308-326 | no thread holds two host locks |
| `CertCacheTheorems.NoDeadlockCycle` | signer.go:308-326 | in every reachable state the waits-for relation is acyclic, and its chains have at most three links |
| `CertCacheTheorems.Unblocked` | signer.go:598-640 | every unfinished call can step or waits at the end of a chain for one that can |
| `CertCacheTheorems.FailedConfigKeptUnlessUpstreamBad` | signer.go:598-640 | when a cached Config fails its re-verification and the call publishes, Cert hands out that same Config again exactly when the upstream chain was not found bad |
| `CertCacheAnswers.CallAnswers` | signer.go:283-640 | a call of Cert returns what its story has: an error, the Config of the entry it found, or the new one; told from the table at its lookup, its entry and the clock at its check, and the answers of foreign code |
| `CertCacheAnswers.CacheIsUsed` | signer.go:315-373 | a call that runs alone for a host cached and verified within the hour returns the cached Config and changes no object and no time |
| `CertCacheAnswers.FreshIsReturned` | signer.go:329-373 | whatever other threads do, an entry found and fresh at the check is answered with its Config, and the deciding step changes nothing |
| `CertCacheAnswers.VerifiedIsReturned` | signer.go:335-365 | an entry that is due and verifies is answered with the same Config and has a new time stamp |
| `CertCacheAnswers.OnlyNewChangesObjects` | signer.go:598-640 | only a host not in the table, or a bad chain, makes a call change the table, a HostInfo or a Config |
| `CertCacheAnswers.NewIsBound` | signer.go:598-632 | such a call returns the new Config, to which its host is bound when it gives back certmu, with a new time stamp |
| `CertCacheAnswers.FlushedIsGone` | signer.go:224-235 | when FlushCert gives back certmu its host is not in the table; when GetTestCertificate does, its host is bound to the Config it returns |
| `CertCacheAnswers.TestAnswers` | signer.go:644-764 | GetTestCertificate returns an error iff the certificate cannot be created, and else the Config it makes |
| `CertCacheAnswers.OtherHostsStay` | signer.go:224-764 | no call changes what the table has for another host |
| `Subdomains.GetSubdomains` | signer.go:769-812 | the two loops compute the labels of the domain in front of the chosen suffix, each with what follows |
| `Subdomains.BelowIsExact` | signer.go:766-768 | the wanted list holds exactly the label-aligned suffixes longer than the public suffix, the longest first |
| `Subdomains.RightIffPublicOrShort` | signer.go:769-812 | the code returns the wanted list if and only if the suffix comes from ICANN or has at most two labels |
| `Subdomains.DotsAreLost` | signer.go:776-788 | for any name of four labels below a private suffix of three: the two names wanted and the three others that come |
| `Subdomains.DotsAreLostHere` | signer.go:776-788 | w.a.b.c below a.b.c gives w.a.b.bc, a.b.bc and b.bc |
| `CounterStream.IncAddsOne` | counterecryptor.go:48-56 | the carry loop adds 1 modulo 256 to the length of the counter, for every carry chain |
| `CounterStream.IncNValue` | counterecryptor.go:48-56 | n passes add n, with one wrap-around |
| `CounterStream.CountersAreDistinct` | counterecryptor.go:48-56 | the first 256^len counters, and under an injective cipher their blocks, are pairwise distinct |
| `CounterStream.ReadGenFollowsStream` | counterecryptor.go:58-68 | a Read returns the next bytes of the stream, as many as asked for or as the current block has left, whichever is less |
| `CounterStream.ReadsFollowStream` | counterecryptor.go:58-68 | the bytes of any sequence of Reads are the beginning of the one stream |
| `CounterStream.ChunkingDoesNotMatter` | counterecryptor.go:58-68 | two ways of cutting up the reads give the same bytes |
| `CounterStream.StreamIsCounterMode` | counterecryptor.go:48-68 | the stream is the rest of the current block, then E(c), E(c+1), and so on |
| `CounterStream.SeedKeepsCurrentBlock` | counterecryptor.go:41-46 | after Seed the rest of the old block comes first, then E(seed), E(seed+1) |
| `CounterStream.CounterEncryptorRand.Refill` | counterecryptor.go:48-56 | the object encrypts the counter and advances it as specified |
| `CounterStream.CounterEncryptorRand.Read` | counterecryptor.go:58-68 | the object's Read gives the specified bytes and leaves the rest of the buffer alone |
| `CounterStream.CounterEncryptorRand.Seed` | counterecryptor.go:41-46 | replaces the counter and keeps the pending bytes |
| `RegretReader.AgreesIffForgetsAreClean` | regretable/regretreader.go:47-97 | the reader is at the mark and position of an ideal stream after every operation of a run if and only if no Forget comes while pushed-back bytes are unread |
| `RegretReader.ReadsAreIdeal` | regretable/regretreader.go:81-97 | on those runs every read returns the bytes of the ideal stream: none lost, repeated or reordered, overflow included |
| `RegretReader.ForgetLosesTheReplay` | regretable/regretreader.go:62-69 | after a Forget in the middle of a replay no later run comes back to the bytes that were still to be replayed, and reads go on as from an ideal stream behind them |
| `RegretReader.ForgetSkipsTwo` | regretable/regretreader.go:62-69 | a run of Read, Regret, Forget, Read that returns 3 where the ideal stream returns 1 |
| `RegretReader.RegretReturnsToMark` | regretable/regretreader.go:47-52 | after any reads and Regrets a Regret returns to the same mark, and it is legal exactly while no more than the buffer was taken since the mark |
| `RegretReader.RegretableReader.Read` | regretable/regretreader.go:81-97 | hands out bytes at the position; what can be replayed comes without a call of the reader below and without error, anything else with the answer of exactly one call; overflows exactly when more than the buffer was taken since the mark |
| `RegretReader.RegretableReader.Fetch` | regretable/regretreader.go:88-96 | new bytes are passed on and kept as far as the buffer has room |
| `RegretReader.RegretableReader.Replay` | regretable/regretreader.go:83-87 | bytes from the buffer are passed on in order |
| `RegretReader.RegretableReader.Regret` | regretable/regretreader.go:47-52 | goes back to the mark |
| `RegretReader.RegretableReader.Forget` | regretable/regretreader.go:62-69 | moves the mark to what has been taken |
| `Chunked.HexRoundTrip` | chunked.go:41 | parsing undoes printing for every length |
| `Chunked.DecodeChunk` | chunked.go:32-51 | a decoder takes the data of one chunk and goes on behind it, and is done at an empty one |
| `Chunked.ChunkedRoundTrip` | chunked.go:32-59 | for every split of a body into writes, empty ones included, the bytes of Write*, Close and the final CRLF are one chunked body that decodes to the concatenation |
| `Chunked.SplitDoesNotMatter` | chunked.go:32-37 | the split and empty writes cannot be seen behind the decoder |
| `Chunked.ChunkedWriter.Write` | chunked.go:32-51 | without error the whole chunk is on the wire; with one, a prefix of it; an empty write sends nothing |
| `Chunked.ChunkedWriter.Close` | chunked.go:56-59 | without error the last chunk is on the wire, with one a prefix of it, and an error means the wire failed |
| `Chunked.CopyChunked` | ctx.go:1604-1607 | the copy loop sends the encoding of all pieces, or a prefix; an error is the body's, with all pieces sent, or the wire's |
| `Chunked.ForwardBody` | ctx.go:1600-1631 | without error the chunked branch sends one body that decodes to what was read; the other sends the plain body and a CRLF, which a receiver of NewBodyLength bytes reads as the body exactly if that is its length, and never without two stray bytes; in every case a prefix of that is on the wire, and an error is the body's or the wire's |
| `ResponseWriter.ResponseShape` | notsodumbresponsewriter.go:51-118 | for every run of WriteHeader and Write and a final Flush: the header block once and first, then the framed writes, then the end |
| `ResponseWriter.HeaderIsCompleted` | notsodumbresponsewriter.go:83-92 | a response without Content-Length announces chunked, one without Content-Type gets text/html, and no other field changes |
| `ResponseWriter.BodyFollows` | notsodumbresponsewriter.go:51-68 | behind the header the writes follow one another and no header is sent again |
| `ResponseWriter.ChunkedBodyDecodesIffNoEmptyWrite` | notsodumbresponsewriter.go:57-67 | the chunked body decodes to the concatenated writes if and only if none was empty |
| `ResponseWriter.EmptyWriteEndsBody` | notsodumbresponsewriter.go:57-67 | the first empty write ends the body for the receiver |
| `ResponseWriter.EmptyWriteLosesTheBody` | notsodumbresponsewriter.go:57-67 | an empty write in front of one byte: the receiver gets an empty body and the byte is left over |
| `ResponseWriter.FixedLengthResponse` | notsodumbresponsewriter.go:104-119 | with a Content-Length the receiver gets the body exactly if the length is right, and never without two stray bytes |
| `ResponseWriter.HijackedIsTransparent` | notsodumbresponsewriter.go:122-125 | after Hijack each Write puts exactly its bytes on the wire |
| `ResponseWriter.NotSoDumbResponseWriter.WriteHeader` | notsodumbresponsewriter.go:72-102 | writes status line, header and blank line once, each whatever becomes of the others, and decides on chunking; while nothing has failed all of it is on the wire |
| `ResponseWriter.NotSoDumbResponseWriter.Write` | notsodumbresponsewriter.go:51-68 | writes the header if needed and the framed bytes, each whatever becomes of the others, and returns what became of the bytes themselves; while nothing has failed all of it is on the wire |
| `ResponseWriter.NotSoDumbResponseWriter.Flush` | notsodumbresponsewriter.go:104-119 | writes the header if needed, the last chunk if chunking, and a CRLF, each whatever becomes of the others; while nothing has failed all of it is on the wire |
| `ResponseWriter.NotSoDumbResponseWriter.Hijack` | notsodumbresponsewriter.go:122-125 | only sets the flag, and returns the writer itself as the connection |
| `Dispatch.ProxyCtx.DispatchRequestHandlers` | dispatcher.go:155-236 | the loop over the request handlers does what RequestFrom specifies, event by event |
| `Dispatch.ProxyCtx.DispatchResponseHandlers` | ctx.go:1314-1446 | the loop over the response handlers, with its rejected flag and its pages, does what ResponseFrom specifies |
| `Dispatch.ProxyCtx.DispatchDoneHandlers` | ctx.go:1448-1482 | the loop over the done handlers does what DoneFrom specifies |
| `Dispatch.ProxyCtx.ForwardResponse` | ctx.go:1490-1545 | sends the response and starts the done chain and returns nil, unless a step of forwardMITMResponse fails, which it returns |
| `Dispatch.ProxyCtx.DispatchConnectHandlers` | dispatcher.go:67-151 | the loop over the connect handlers does what ConnectFrom specifies |
| `DispatchTheorems.RequestOutcome` | dispatcher.go:155-236 | the handlers up to the first verdict that is neither NEXT nor FORWARD without a response are called in order, and that verdict alone decides the rest |
| `DispatchTheorems.ResponseOutcome` | ctx.go:1314-1446 | only DONE and the panicking verdicts keep a response handler from being called; one REJECT anywhere, or no response, replaces the response |
| `DispatchTheorems.DoneOutcome` | ctx.go:1448-1482 | the done handlers are called up to the first verdict that is neither NEXT nor FORWARD |
| `DispatchTheorems.ConnectOutcome` | dispatcher.go:67-151 | the tunnel is joined iff every connect handler says NEXT, FORWARD or MITM; DONE and SIGNATURE leave it open, REJECT refuses a CONNECT |
| `DispatchTheorems.CalledIffAllPass` | dispatcher.go:159-177 | request handler k is called iff each one before it said NEXT, or FORWARD with no response set |
| `DispatchTheorems.ForwardSkipsIffResponse` | dispatcher.go:169-176 | FORWARD skips the remaining handlers iff it leaves a response set, against handlers.go:7-10 |
| `DispatchTheorems.ForwardDoesNotSkip` | dispatcher.go:169-176 | two handlers of which the first says FORWARD: the second is called |
| `DispatchTheorems.ForwardIsNext` | dispatcher.go:102-108 | replacing FORWARD by NEXT changes nothing in any chain, except for a request handler's FORWARD with a response set |
| `DispatchAnswers.ResponseSent` | ctx.go:1346-1442 | if all response handlers pass, a REJECT sends 502 script, 403 image or the 502 page by the extension; else the response left; else the 504 page by the error |
| `DispatchAnswers.NothingSentWhenStopped` | ctx.go:1319-1345 | a DONE verdict or a panic of the response chain sends nothing |
| `DispatchAnswers.TunnelledOrFetched` | dispatcher.go:212-235 | the request is tunnelled iff every request handler passes and the last view says so, fetched iff every one passes and it does not, and the response handlers see what was fetched |
| `DispatchAnswers.RejectedRequestSent` | dispatcher.go:179-206 | a rejected request is answered with 502 script, 403 image or the 504 page by the extension, and no response handler is called |
| `DispatchAnswers.ForwardedResponseSent` | dispatcher.go:169-175 | FORWARD with a response set sends it and calls no response handler |
| `DispatchAnswers.MockedResponse` | dispatcher.go:164-166 | MOCK goes to the response handlers with the response as it is |
| `DispatchAnswers.StoppedRequest` | dispatcher.go:161-163 | DONE sends nothing and starts the done chain; MITM, SIGNATURE and unknown verdicts panic |
| `DispatchAnswers.ForwardedEnds` | ctx.go:1490-1545 | the done chain follows the response unless the client is a secure MITM client and a step of its response fails |
| `DispatchCounts.DispatchedOnce` | dispatcher.go:155-236 | without a panic exactly one terminal action, at most one ForwardResponse, and one start of the done chain unless the request was tunnelled or a write to a MITM client failed |
| `DispatchCounts.RequestTidy` | dispatcher.go:155-236 | with a panic of a request or response handler none of these has happened |
| `DispatchCounts.ForwardedCount` | ctx.go:1490-1545 | ForwardResponse starts the done chain exactly when forwardMITMResponse is not cut short |

## Left out

- Sockets, TLS, DNS, timers and random bytes: they appear as actions or parameters with any outcome.
- `persistConn`, `getConn`, the certificate cache and the owners of a pooled connection are values under a step relation, not objects: Dafny methods do not interleave. Weak-memory effects of the unsynchronised `es.fn` and `alive` are not captured; their accesses are single steps in program order.
- One request per connection in `PersistConn`: the stubs of the pool functions (nonhttproundtripper.go:351-364) rule out a second. `Expect: 100-continue`, gzip decoding and tracing hooks are not in it.
- The bytes and errors that `Read` and `Close` of a response body return to their caller, and which of its errors `getConn` returns: the models say when these calls end, not with what value.
- PooledConnTheorems.OneUser: each response body has one reader, which calls Read and Close in turn; that is what the transport asks of its callers.
- The `log.Printf` of an unsolicited response and the gzip wrappers of the pooled transport.
- ConnLRU.IdleConns.RemoveIdleConnLocked: the timer of the connection is not stopped in the model, and two buckets never share an array.
- Certificate creation and verification: a certificate is an id. RootCAs is the same for every Config and not modelled.
- Key derivation of the counter stream (counterecryptor.go:19-39): the cipher is any length-preserving function, injective where that matters.
- Chunk extensions and trailers, which no writer here emits, and the text of header lines: `Format` stands for status line and fields.
- ResponseWriter.NotSoDumbResponseWriter.Write: a header field block is one write of the model; http.Header.Write may make several.
- Dispatch.ProxyCtx.ForwardResponse: the edits of the response header (Content-Length, Server, Winston-Status) and body bytes are not part of its event; `Chunked.ForwardBody` covers the body of a MITM response. Failures while writing to a plain client are ignored by the code.
- Dispatch: handlers that call a dispatcher themselves, tracing, and the failure of the hijack in front of the connect chain.
- The answer of the public suffix list is a parameter of `GetSubdomains`, required to be a label-aligned suffix of the domain.
- HAR export, logging, HTML pages, user-agent and ClientHello signatures, virtual hosts, filters and address helpers: easy or foreign.

# Verification of the grab engine and the yEnc decoder

A Dafny model of two parts of grabby, a Usenet binary downloader, and of what
joins them.

**The grab engine.** A grabber holds files, a file holds segments, and each of
the three is a small state machine. A work queue, requests in flight at
servers, failover over servers, groups and retries, and pausing and resuming
(which may leave several tokens for one segment) drive them. `GrabModel` is the
engine as a state machine over values: `World` is a state, `Step` one event.
`GrabObjects` is the same engine as the objects of the source, updating each
other in place; each of its methods is proved to do to the abstract world
exactly what the state machine says. `Channels` and `ChannelRuns` run the
engine over its bounded channels and goroutines and prove that to be the same
engine again.

**The yEnc decoder.** A writer that takes an article in arbitrary pieces, finds
its lines in a buffer, parses header, part header and trailer, and decodes each
data line in place while an escape flag crosses lines and writes.
`YencCodec.Encodes` states the encoding principle of the yEnc 1.3 draft, and the
decoder is proved to invert it. `YencDecoder` is one turn of the decoding loop
as a function, `LineStream` the reading of lines for any such turn, and
`YencObject` the decoder as the object it is. `YencFields` says which header any list
of fields is read as, and `CrcPolynomial` that the checksum is the remainder of a
polynomial division (`Division`).

**What joins them.** The type sniffer, an NNTP session's memory of its group,
putting segments in order, and assembling the decoded parts into the original
file (`Sniffing`, `NntpSession`, `Assembly`, `AssemblyObject`, `EndToEnd`).

## How the main results fit together

`GrabInvariant.Inv` is the invariant of the engine: every run of any events from a
newly built grabber keeps it (`GrabTheorems.ReachableIsCoherent`), and most of
`GrabTheorems` needs nothing more. `GrabInvariant.Orderly` is what is kept besides
by every event but one call. `GrabTermination.MeasureOf` is the seven-part measure
that every dispatch and every response lowers; with the invariant it gives
`GrabTheorems.GrabAllCompletes`, and with the hops that channels still have to make
it gives `ChannelRuns.WorkCompletes`. `GrabStranding` says exactly which segments
are left without what they need, by which event, and until when.

What one event does is written out in `GrabEffects`, and what whole runs come to in
terms of the NZB and of the answers alone in `GrabOutcome`, `GrabFailover` and
`GrabAsked`.

`YencRoundTrip.RoundTrip` and `YencDecoder.WritesAgree` are the decoder's main
results, and `EndToEnd.AssembledIsOriginal` uses them for every part of a file.

## Where the code does less than one would hope

Each of these is kept as the code has it, with the exact condition proved.

- Asking for a paused file while the whole grabber is paused can strand a segment
  of it, since the file is set to Working before the grabber is asked
  (`grabber/file.go:109-114`). This call is the only event that puts the engine out
  of order (`GrabApi.StepOrderly`). A segment is stranded exactly by the dispatch of
  its only token, the first of its file, while the grabber is still paused, and it
  stays so until the grabber is paused again (`GrabStranding.StrandedAfter`).
  Resuming before any such dispatch, or pausing and resuming afterwards, puts
  everything right (`GrabStranding.ResumedInTime`,
  `GrabStranding.PauseAndResumeRestores`).
- A file without segments is never Done, so a grabber that requires one is never
  post-processable. After GrabAll every required file gets Done if and only if each
  has segments and none of these was stranded (`GrabTheorems.GrabAllCompletes`).
- After the trailer a later Write decodes what is left in the buffer as data, so
  how the input is cut matters exactly when a complete line is behind an
  accepted trailer (`YencRoundTrip.ChunksOfArticleAgree`).
- A file name survives if and only if it has no space (`YencText.HeaderRoundTrip`),
  though the draft allows spaces. It ends at the first space, and its later words
  are read as elements of the header, overriding what the header says if they are
  of the form key=value (`YencText.SpacedName`).
- An answer that comes from a server the segment has already given up on, which only
  a second token for the segment can bring about, is booked against the server that
  has taken its place (`grabber/grabber.go:376-381`). It can make that server be given
  up on, and the segment fail, without ever having been asked
  (`GrabLate.LateAnswerFailsAnother`). What servers are given up on for is therefore
  stated of runs whose answers are in time (`GrabFailover.ServerGivenUp`); an answer
  that is late does no harm exactly if it changes nothing
  (`GrabLate.LateAnswerMisbooked`).
- An article that breaks off before its trailer is accepted as it is
  (`YencRoundTrip.MissingTrailer`).
- A malformed keyword line is reported, but its callers overwrite the report
  (`decode/yenc/yenc.go:111-114`). It is accepted if and only if what stands before
  its first malformed element is (`YencText.MalformedIsCut`).
- The sizes in header and trailer are never compared with the output. An accepted
  output has the size claimed if and only if what was encoded has
  (`YencRoundTrip.SizesAreNotCompared`), and any sizes are accepted for any bytes
  (`EndToEnd.AnySizesAreAccepted`).
- A failing Assemble loses segments if and only if the first one was there. After
  the missing ones have been put back a second try succeeds if and only if nothing
  was lost (`Assembly.FailureKeeps`, `Assembly.RetryAfterRepair`).
- Connecting a session again without Quit leaves it believing in a group that the
  new connection has not selected, if and only if it remembers one
  (`NntpSession.StepCoherent`).

And one that is a plain fact of the code, which the model follows: every server must
be in a group, whatever its options (`grabber/server.go:65`).

## Model

| member | source | states |
|---|---|---|
| GrabTheorems.ReachableIsCoherent | grabber/grabber.go:94-121 | every state of every run of GrabAll, GrabFile, Pause, Resume, dispatches and responses from a newly built grabber satisfies the invariant, and is orderly if no call of the run wakes a paused file under a paused grabber |
| GrabTheorems.Hierarchy | grabber/file.go:96-164 | in every reachable state a paused file has only paused, pausing or done segments and is not required unless the grabber is paused, a working segment has a working file, and a file that is not required is paused and never had a token or a Grab; in orderly runs a paused grabber has only paused or done files and a working file a working grabber |
| GrabTheorems.DoneCounts | grabber/file.go:238-247 | a file's count is the number of its Done segments, it is Done iff it has segments and all of them are, and its Done has fired exactly once |
| GrabTheorems.Accounting | grabber/grabber.go:313-364 | required minus done files is the number of required files still open, so the grabber is post-processable iff every required file is Done |
| GrabTheorems.FailureConservation | grabber/grabber.go:574-583 | the failure counter is the number of segments Done with an error, and Health stays within 0 and 100 |
| GrabTheorems.HealthIsShare | grabber/grabber.go:579-583 | Health is the share of segments that have not failed, in percent |
| GrabTheorems.FailsForAReason | grabber/grabber.go:418-433 | a segment gets an error only from its own dispatch: because every server has failed, or because an output could not be created |
| GrabTheorems.GrabsBest | grabber/grabber.go:426-472 | a dispatch makes at most one request, to the best server that has not failed, which is alive and in retention, for the first group that has not failed there |
| GrabTheorems.PriorityOrder | grabber/segment.go:209-217 | in every run the servers asked for a segment never go back up the priority order, and by its end all better ones than one asked have failed |
| GrabTheorems.GrabbedFilesKept | grabber/grabber.go:523-549 | in any state of the invariant Pause, Resume and GrabAll never discard grabbed files, GrabFile starts a new round iff every required file is Done, and network events only add to them |
| GrabTheorems.SignalExactlyWhenComplete | grabber/grabber.go:343-357 | no event undoes a Done segment or file or changes its error, at most one file finishes, and the signal is sent iff one finishes and leaves no required file open |
| GrabTheorems.QuietMeansDone | grabber/grabber.go:475-508 | no segment is lost: once queue and network are empty and the grabber is not paused, a grabbed file is Done iff it has segments and none of them is stranded |
| GrabTheorems.GrabAllRunCompletes | grabber/grabber.go:551-563 | any run of dispatches and responses after GrabAll that empties queue and network leaves every required file Done, and the counters equal, iff each has segments and none was stranded at the call |
| GrabTheorems.GrabAllCompletes | grabber/grabber.go:551-563 | after GrabAll, from any state of the invariant that is not paused, under any schedule and any answers, such an end is reached |
| GrabTheorems.GrabFileWhilePausedStrands | grabber/file.go:109-114 | a concrete run in which GrabFile under a paused grabber ends, after Resume, with nothing left to do and a stranded segment |
| GrabStranding.StrandedAfter | grabber/file.go:96-116 | for every event in every state: the segments stranded after it are those stranded before, unless it paused the grabber, and the one whose only token a paused grabber just refused after its file had been started |
| GrabStranding.StrandedStays | grabber/file.go:96-164 | in every run that does not pause the grabber a stranded segment stays stranded and its file Working, Resume, GrabAll and GrabFile included |
| GrabStranding.AskedWhilePaused | grabber/segment.go:58-84 | for every file asked for while it and the grabber are paused and every unfinished segment of it: its dispatch sets the file to Working, leaves the segment Pending, and adds no token |
| GrabStranding.ResumedInTime | grabber/grabber.go:233-264 | resuming before anything of that file is dispatched leaves the engine orderly |
| GrabStranding.PauseAndResumeRestores | grabber/grabber.go:213-264 | from every reachable state, resuming if paused, then pausing and resuming, leaves the engine orderly with no segment stranded |
| GrabApi.GrabFileKeeps | grabber/grabber.go:523-549 | GrabFile keeps the invariant, and keeps an orderly engine orderly iff it does not name a paused file while the grabber is paused |
| GrabApi.GrabPendingKeeps | grabber/grabber.go:551-563 | GrabAll keeps the invariant and order |
| GrabApi.PauseKeeps | grabber/grabber.go:213-231 | Pause keeps the invariant, and puts an engine that is not paused in order whatever state it was in |
| GrabApi.ResumeKeeps | grabber/grabber.go:233-264 | Resume keeps the invariant and order, and puts a paused engine in order, every unfinished segment of a grabbed file with a token again, iff none of its files is Working |
| GrabApi.StepOrderly | grabber/file.go:109-114 | an event of any kind keeps an orderly engine orderly iff it is not the call that wakes a paused file under a paused grabber |
| GrabApi.StartsOK | grabber/grabber.go:94-121 | a grabber built from any files, whichever smallest par2 file is resumed, satisfies the invariant and is orderly |
| GrabNetwork.TryServersOutcome | grabber/grabber.go:411-473 | one dispatch forgets no failed server and fails one only for being dead, out of retention, or out of groups; it gives up only if all have failed or an output cannot be created, and otherwise asks the best server left, which is alive and in retention, for the first group left |
| GrabNetwork.DispatchKeeps | grabber/grabber.go:411-473 | a dispatch keeps the invariant, whichever servers are dead or out of retention and whichever outputs cannot be created |
| GrabNetwork.RespondKeeps | grabber/grabber.go:370-409 | a response to any request in flight, late or duplicate ones included, keeps the invariant |
| GrabTermination.NetworkDecreases | grabber/grabber.go:370-473 | every dispatch and every response strictly lowers the lexicographic measure, although failing a server resets groups and retries |
| GrabTermination.EveryScheduleDrains | grabber/grabber.go:475-508 | whatever order events happen in, finitely many of them empty queue and network |
| GrabTermination.NoEndlessRun | grabber/grabber.go:411-473 | no infinite run consists of dispatches and responses only |
| GrabRequests.ErrorBudget | grabber/segment.go:189-225 | an answer other than success at a live server and group costs at least one of the Grabs the segment has left |
| GrabRequests.RequestBound | grabber/grabber.go:370-383 | a segment with one token causes at most servers times (retries plus distinct groups) further Grabs |
| GrabRequests.FirstGrabBound | grabber/grabber.go:551-563 | that bound holds of every segment after the first GrabAll |
| GrabFailover.ServerGivenUp | grabber/grabber.go:370-473 | read off the answers of any run in which those about a segment are in time: a server that is always up for it is given up on only after a decode error or no such article there, more other errors there than the retries allowed, or a refusal there of every group of the file; and every server with one of the first two is given up on |
| GrabFailover.AsksWhatIsLeft | grabber/grabber.go:411-473 | in such runs the next Grab goes to a server that had none of these errors and has retries left, for the first group of the file that this server has not refused |
| GrabFailover.SoleTokenIsTimely | grabber/grabber.go:385-409 | as long as a segment has one token every answer about it is in time |
| GrabFailover.FirstGrabIsTimely | grabber/grabber.go:551-563 | so all answers after the first GrabAll are |
| GrabLate.AskedTwice | grabber/grabber.go:551-563 | a concrete run in which two calls of GrabAll put two requests for one segment in flight at the first of two servers |
| GrabLate.LateAnswerFailsAnother | grabber/grabber.go:370-383 | how that run goes on: after a decode error, the second request's late answer that there is no such group fails the segment, although the second server was up and never asked |
| GrabLate.LateAnswerMisbooked | grabber/segment.go:189-225 | an answer from a server already given up on leaves the books of the best one left as its own answers make them iff it leaves them unchanged: for no such group, iff the group was refused there too; for any other error, iff nothing was booked there and, if it may pass, no retries are allowed |
| GrabAsked.GrabsMade | grabber/grabber.go:411-473 | with the same servers up throughout and the same error as every answer, the Grabs for a wanted segment after the first GrabAll are, in this order, those for the groups asked for at each server that is up, best server first |
| GrabAsked.LoneServer | grabber/grabber.go:370-383 | with one server up: every answer no such group, and each distinct group of the file is asked for once, in the file's order; every answer another error that may pass, and the first group is asked for max(0, retries) + 1 times; every answer a decode error or no such article, and it is asked for once |
| GrabOutcome.Built | grabber/grabber.go:94-121 | the grabber built, in terms of the NZB's files alone: the chosen par2 file and every file that is neither par2 nor filtered is Pending, required and has only Pending segments, every other one is Paused, not required and has only Paused ones, as many are required as are wanted, and nothing has started |
| GrabOutcome.GrabbedAreWanted | grabber/grabber.go:114-117 | any run after GrabAll that empties queue and network leaves exactly the wanted files that have segments Done, the chosen par2 file among them, and the others Paused and never asked for |
| GrabOutcome.EverythingGrabbed | grabber/grabber.go:551-563 | under any schedule and any answers such an end is reached |
| GrabEffects.PauseEffect | grabber/grabber.go:213-231 | the whole new state, file by file and segment by segment |
| GrabEffects.GrabFileEffect | grabber/grabber.go:523-549 | the whole new state: the new round, the file resumed and counted, its segments queued in order |
| GrabEffects.GrabAllEffect | grabber/grabber.go:551-563 | the segments of every Pending file are queued in order, and nothing else changes |
| GrabEffects.ResumeEffect | grabber/grabber.go:233-264 | the whole new state: required files that are paused resumed, their segments and those of required files that were Pending queued in order, and nothing else changed |
| GrabEffects.AnswerEffect | grabber/grabber.go:370-409 | the whole new state after any answer to any request: what is booked, what is queued, what is finished and signalled |
| GrabEffects.OutputPerServer | grabber/grabber.go:416-433 | an output is created anew for every server tried, before any is looked at, and the segment fails for want of one iff the last cannot be created |
| GrabEffects.GivenUpInFront | grabber/grabber.go:426-459 | a dispatch gives up only on servers better than the one it asks |
| GrabModel.SelectServer | grabber/segment.go:209-217 | the server chosen has not failed and all before it have; none is chosen iff all have failed |
| GrabModel.SelectGroup | grabber/segment.go:199-207 | the group chosen is the first of the file's that has not failed; none is chosen iff all have |
| GrabObjects.SegmentObject.Working | grabber/segment.go:58-84 | what the call does to the states of segment, file and grabber together |
| GrabObjects.SegmentObject.Pause | grabber/segment.go:86-105 | pending becomes paused and working becomes pausing, nothing else changes |
| GrabObjects.SegmentObject.Resume | grabber/segment.go:107-121 | paused and pausing become pending, nothing else changes |
| GrabObjects.SegmentObject.Done | grabber/segment.go:123-145 | only the first call counts: it records the error, counts the segment, and finishes the file iff it was the last |
| GrabObjects.SegmentObject.FailServer | grabber/segment.go:193-197 | the server is added and groups and retries are cleared |
| GrabObjects.SegmentObject.FailGroup | grabber/segment.go:189-191 | the group is added and nothing else changes |
| GrabObjects.SegmentObject.SelectServer | grabber/segment.go:209-217 | the loop finds the first server that has not failed |
| GrabObjects.SegmentObject.SelectGroup | grabber/segment.go:199-207 | the loop finds the first group that has not failed |
| GrabObjects.SegmentObject.RetryServer | grabber/segment.go:219-225 | counts a retry and says yes iff fewer than the maximum were made |
| GrabObjects.FileObject.constructor | grabber/file.go:56-94 | new segments in order; par2 and filtered files start paused and uncounted, others raise the grabber's required count |
| GrabObjects.FileObject.Working | grabber/file.go:96-116 | what the call does to file and grabber, the file first |
| GrabObjects.FileObject.Pause | grabber/file.go:118-138 | the loop pauses every segment of a pending or working file |
| GrabObjects.FileObject.Resume | grabber/file.go:140-164 | the loop resumes every segment of a paused file, which becomes required and is then counted once |
| GrabObjects.FileObject.SegmentDone | grabber/file.go:238-247 | counts the segment and finishes the file iff it was the last |
| GrabObjects.Grabber.FileDone | grabber/grabber.go:343-357 | records the file and signals iff enough files are done |
| GrabObjects.Grabber.FromNZB | grabber/grabber.go:94-121 | the objects built for any list of files: the chosen par2 file and all that are neither par2 nor filtered Pending and required, the others Paused and not, and all of it the state machine's initial state |
| GrabObjects.Grabber.Pause | grabber/grabber.go:213-231 | the objects do exactly what the state machine's Pause does |
| GrabObjects.Grabber.Resume | grabber/grabber.go:233-264 | the objects do exactly what the state machine's Resume does |
| GrabObjects.Grabber.ResetGrabbedFiles | grabber/grabber.go:321-324 | a new round starts iff the last one is complete |
| GrabObjects.Grabber.GrabFile | grabber/grabber.go:523-549 | a file of another grabber is refused without effect, any other call does what the state machine's does |
| GrabObjects.Grabber.GrabAll | grabber/grabber.go:551-563 | the loop over files does what the state machine's GrabAll does |
| GrabObjects.Grabber.Dispatch | grabber/grabber.go:411-473 | taking a segment off the queue and dispatching it, recursion over failed servers included, is the state machine's step |
| GrabObjects.Grabber.HandleError | grabber/grabber.go:370-383 | a missing group is added to the segment's failed groups and nothing else changes; a decode error, a missing article, or another error with no retry left fails the server and clears groups and retries; otherwise one retry is counted |
| GrabObjects.Grabber.HandleResponse | grabber/grabber.go:385-409 | handling any response in flight is the state machine's step |
| Channels.HopKeepsQueue | grabber/grabber.go:475-515 | the pump, its slice and the channels on both sides of it are one first-in first-out queue: no hop of any goroutine takes from it or reorders it, and what is enqueued goes to its end |
| Channels.CallFollowsPlan | grabber/grabber.go:545-547 | an API call enqueues the segments of its files in order, each once |
| Channels.HopKeepsRequests | nntp/server.go:130-154 | no hop loses, duplicates or alters a request, and a response comes out as the answer of the server and group that were asked |
| Channels.HopKeepsBounds | grabber/grabber.go:158-192 | no hop overfills a channel: at most 100 segments on either side of the pump, one job a session at each server, one response for every session there is |
| Channels.HopsShrink | grabber/server.go:177-190 | every hop brings what is in the channels nearer to being dealt with |
| Channels.NeverStuck | grabber/grabber.go:475-515 | deadlock freedom: with a session per server, whatever channels are full, some goroutine can move as long as anything is in the channels or a call is under way, a Resume that holds the grabber's lock and waits for room included |
| Channels.Pump.Enqueue | grabber/grabber.go:510-515 | appends to the queue's contents |
| Channels.Pump.Turn | grabber/grabber.go:477-499 | a turn of the loop keeps the contents and their order, always leaves room to enqueue, and offers a segment if there is one |
| Channels.Pump.Next | grabber/grabber.go:500-508 | takes the oldest |
| ChannelRuns.MoveRefines | grabber/grabber.go:385-508 | every move over the channels is a step of the state machine or none, and the channels, with the segment the response handler is putting back, go on holding exactly its queue and its requests in flight |
| ChannelRuns.SomeMove | nntp/server.go:130-154 | in every state that is not idle some move is possible, whatever dispatch finds |
| ChannelRuns.MoveDecreases | grabber/grabber.go:475-515 | every move lowers the engine's measure, or keeps the world and lowers the hops left |
| ChannelRuns.CallCarries | grabber/grabber.go:510-515 | after any API call, its segments taken in by the pump, the channels hold the state machine's queue and requests again |
| ChannelRuns.RestingCarries | grabber/grabber.go:158-192 | channels and goroutines with nothing to do hold the tokens of a state with none |
| ChannelRuns.WorkCompletes | grabber/server.go:177-190 | from any state of the channels, under any scheduling of the goroutines and any answers, the work runs dry, what happened is a run of the state machine, and unless the grabber is paused a file grabbed by then is Done iff it has segments and none was stranded |
| ChannelRuns.GrabAllOverChannels | grabber/grabber.go:551-563 | GrabAll at any moment, requests in flight or not, run over the channels ends with every required file Done and the counters equal, iff each has segments and none was stranded |
| YencCodec.DecodeInvertsEncode | decode/yenc/yenc.go:72-82 | decoding any encoding of a byte string, with any optional escapes, gives the string back and ends outside an escape |
| YencCodec.DecodeConcat | decode/yenc/yenc.go:190-209 | decoding successive lines is decoding their concatenation with the escape flag carried over |
| YencCodec.EncodingIsWellEscaped | decode/yenc/yenc.go:190-209 | an encoding has no line terminator, and an escape is followed by one of seven bytes |
| YencCodec.DataLineIsNotTrailer | decode/yenc/yenc.go:247-253 | no line cut out of an encoding, even inside an escape pair, reads as a keyword line |
| YencText.HeaderRoundTrip | decode/yenc/yenc.go:110-140 | a header survives printing and parsing iff its name has no space |
| YencText.SpacedName | decode/yenc/yenc.go:86-140 | a name ends at its first space, and its later words are read as elements over the header's; if the first of them is no key=value the header parsed is the one with the name cut |
| YencText.MalformedIsCut | decode/yenc/yenc.go:86-169 | every malformed keyword line, of any of the three kinds, is accepted exactly as what stands before its first malformed element is, and not at all if that is the keyword alone |
| YencText.PartHeaderRoundTrip | decode/yenc/yenc.go:143-154 | a printed part header parses to itself iff its numbers fit an int |
| YencText.TrailerRoundTrip | decode/yenc/yenc.go:157-169 | a printed trailer parses to itself iff its size fits an int |
| YencText.AtoiInvertsFormat | decode/yenc/yenc.go:114-119 | decimal text parses back to its number, and out of range numbers are refused |
| YencFields.AtoiMeans | decode/yenc/yenc.go:114-119 | a text is read as a number iff it is digits behind at most one sign that stand for it in base ten, and it fits 64 bits |
| YencFields.HeaderRead | decode/yenc/yenc.go:110-140 | for every list of clean fields, in any order, with keys missing or repeated, which header is read, if any: the last value of a key counts, a missing or empty part means single-part, a missing or empty total is 0, and any number that is there and is none refuses the line |
| YencFields.PartHeaderRead | decode/yenc/yenc.go:143-154 | the same for part headers, which need both numbers |
| YencFields.TrailerRead | decode/yenc/yenc.go:157-169 | the same for trailers, which need the size and may lack either checksum |
| CrcPolynomial.Crc32IsRemainder | decode/yenc/yenc.go:73 | the checksum of every byte string is the complement of the remainder that the polynomial with terms 32, 26, 23, 22, 16, 12, 11, 10, 8, 7, 5, 4, 2, 1, 0 leaves of the message, lowest bits first, times x^32 with its first 32 coefficients complemented, whichever quotient shows it, read with the highest power as the lowest bit |
| CrcPolynomial.RemainderExists | decode/yenc/yenc.go:73 | and there is such a division for every byte string |
| YencCrc.AcceptedChecksums | util/util.go:38-45 | the texts accepted for a checksum are exactly the hexadecimal texts of its value in one letter case that have eight digits or no needless zero in front |
| YencDecoder.RegisterIsChecksum | decode/yenc/yenc.go:72-74 | after any writes the register stands for the Crc32 of exactly the bytes output |
| YencChecksum.RegisterIsRemainder | decode/yenc/yenc.go:72-74 | which is the complemented remainder of those bytes by the generator polynomial |
| YencDecoder.TrimRightCuts | decode/yenc/yenc.go:235 | what is cut off a line's end is line terminators only, and all of them |
| YencDecoder.WritesAgree | decode/yenc/yenc.go:263-269 | output, checksum, parsed lines and verdict are the same for all ways of cutting the input into writes iff one write of it all leaves no complete line unread behind the trailer |
| LineStream.ChunkIndependence | decode/yenc/yenc.go:211-220 | the same for any way of taking lines off the buffer |
| YencRoundTrip.RoundTrip | decode/yenc/yenc.go:174-260 | for every byte string, encoding, split into lines, preamble within the limit and cutting into writes, exactly that string is output; if the trailer has a part checksum that alone decides, else the checksum if there is one, and a wrong one is reported as the kind it is |
| YencRoundTrip.ChunksOfArticleAgree | decode/yenc/yenc.go:247-253 | an article followed by anything decodes alike for all cuttings iff its checksum is wrong or what follows holds no complete line |
| YencRoundTrip.HeaderLimit | decode/yenc/yenc.go:226-237 | however the bytes arrive in writes, a header line is honoured iff the lines before it come to less than 1024 bytes, and nothing is output before it |
| YencRoundTrip.BadHeader | decode/yenc/yenc.go:230-237 | a header line that cannot be read is an error, with nothing output, however it arrives |
| YencRoundTrip.BadPartHeader | decode/yenc/yenc.go:239-246 | so is any line but a readable part header right behind a multi-part header, and which error it is |
| YencRoundTrip.BadTrailer | decode/yenc/yenc.go:249-252 | a trailer that cannot be read is an error behind all of the data |
| YencRoundTrip.MissingTrailer | decode/yenc/yenc.go:222-260 | an article that breaks off before its trailer is accepted with all of its data output |
| YencRoundTrip.SizesAreNotCompared | decode/yenc/yenc.go:247-253 | an article with a right checksum is accepted whatever sizes it claims, and its output has the size claimed by header or trailer iff what was encoded has |
| YencObject.Decoder.constructor | decode/yenc/yenc.go:72-82 | the two loops fill the tables for all 256 bytes, the second from the first |
| YencObject.HeaderBytesToMap | decode/yenc/yenc.go:86-107 | the loop builds the map of the elements up to the first malformed one, which is reported |
| YencObject.ParseHeaderLine | decode/yenc/yenc.go:110-140 | the step by step parse is the header function, whose results are those of YencFields.HeaderRead |
| YencObject.Decoder.Compact | decode/yenc/yenc.go:190-204 | the in-place loop leaves in the line exactly the decoded bytes of the original line, never writing ahead of what it reads |
| YencObject.Decoder.Scan | decode/yenc/yenc.go:211-220 | takes exactly the next complete line off the buffer, or nothing if there is none |
| YencObject.Decoder.VerifyCRC32s | decode/yenc/yenc.go:174-186 | the part checksum alone decides if there is one, else the checksum if there is one |
| YencObject.Decoder.TakeLine | decode/yenc/yenc.go:224-258 | one turn of the loop does what the line function says to every field |
| YencObject.Decoder.YDecode | decode/yenc/yenc.go:222-260 | the loop over the buffer is the reading of lines by the line function |
| YencObject.Decoder.Write | decode/yenc/yenc.go:263-269 | a write takes all bytes or reports an error |
| YencObject.Copy | nntp/session.go:109 | copying a body to the decoder piece by piece stops at the first error, as the functions say |
| Sniffing.Sniffer.Write | magic/sniffer.go:40-50 | bytes go through unchanged, and the type is told exactly once, from the first ten bytes, however they arrive |
| Sniffing.WriteAll | magic/sniffer.go:40-50 | the same over any sequence of writes |
| Sniffing.HeaderTypes | magic/header.go:14-26 | which beginnings are which type |
| NntpSession.StepCoherent | nntp/session.go:43-118 | a session's remembered group stays the selected one through every event, and the server is asked only for another, named group, except exactly when the session connects again with a group remembered |
| NntpSession.BodiesRunInTheirGroup | nntp/session.go:99-110 | in any run without that, every BODY for a named group is sent while the server has that group selected, and no GROUP for one that is selected already |
| NntpSession.CallSends | nntp/session.go:81-110 | one more call sends one BODY, for its group, iff it does not fail, and one GROUP iff its group is named and not the one remembered; it fails iff that is refused |
| NntpSession.RunSends | nntp/session.go:43-118 | over every run, reconnections included, the BODYs sent are the groups of the calls that did not fail, the GROUPs those of the calls that asked for another group, in order, and the group remembered is the last one selected since quitting |
| NntpSession.Session.SelectGroup | nntp/session.go:81-95 | asks the server only for another, named group, and remembers it only on success |
| NntpSession.Session.WriteArticleBody | nntp/session.go:99-110 | fails iff its group is named, not remembered and refused; if it fails it sends no BODY, and otherwise exactly one, for its group |
| Assembly.SortedOrderUnique | grabber/file.go:218-224 | with distinct numbers every sorting algorithm gives the same order |
| Assembly.DistinctPaths | postprocess/file.go:38-58 | the paths of segments are distinct, and none is the destination's, iff their file names are |
| Assembly.AssembleEffect | postprocess/file.go:89-108 | Assemble succeeds iff every segment is there and no two share a path; whether it does or not, the destination holds the segments before the first that stops it, in order, those are gone, and no other file has changed |
| Assembly.FailureKeeps | postprocess/file.go:76-108 | a failing Assemble leaves every segment it found as it was iff the first was missing |
| Assembly.RetryAfterRepair | postprocess/file.go:89-108 | with the missing segments put back a second try succeeds, with the result of an undisturbed first one, iff the failure lost nothing, iff the first segment was missing |
| Assembly.RetryLosesData | postprocess/file.go:76-108 | after a failure with the first segment there, a second try without repair fails too and leaves an empty destination without that segment |
| AssemblyObject.GrabbedFile.SortSegments | grabber/file.go:218-224 | the segments are the same ones, sorted, and untouched if they were sorted |
| AssemblyObject.File.constructor | postprocess/file.go:38-58 | the paths are those of the segments after sorting, and how the file is named |
| AssemblyObject.File.AppendSegment | postprocess/file.go:76-87 | a segment that is there moves to the end of the destination, otherwise nothing changes |
| AssemblyObject.File.Assemble | postprocess/file.go:89-108 | the loop is the assembly function, and a second call changes nothing |
| EndToEnd.AssembledIsOriginal | postprocess/file.go:38-108 | parts encoded, sent in any pieces, decoded, and listed in any order are all accepted and assembled into the original file |
| EndToEnd.PrintedArticleCarries | decode/yenc/yenc.go:222-260 | every byte string, under every header, part header and trailer that fit their types and any split of its encoding into lines, makes an article the decoder's results apply to, with the header's name ending at its first space; the word after that space must not be key=value |
| EndToEnd.PrintedSingleCarries | decode/yenc/yenc.go:222-260 | the same for a single-part article |
| EndToEnd.AnySizesAreAccepted | decode/yenc/yenc.go:222-260 | every byte string is accepted and output under any sizes claimed by header and trailer |

## Left out

- GrabTheorems.ReachableIsCoherent: assumes that article IDs are distinct, since responses are matched by ID (`grabber/grabber.go:387`), and that no session dies of a protocol error, which drops its request (`nntp/server.go:137`).
- GrabObjects.FileObject.constructor: the registration of par2 files with the grabber, which appends on two paths, is not modelled.
- GrabObjects.Grabber.FromNZB: name, metadata and the total of segments are absent, and which smallest par2 file the sort puts first is an input.
- GrabFailover.ServerGivenUp: is stated of runs whose answers about the segment are in time, since it is false of others (`GrabLate.LateAnswerFailsAnother`, `GrabLate.LateAnswerMisbooked`); with one token for the segment all answers are (`GrabFailover.SoleTokenIsTimely`).
- GrabFailover.AsksWhatIsLeft: is stated of the same runs.
- GrabTheorems.HealthIsShare: over the reals; the rounding of floating point is not modelled.
- NntpSession.Session.WriteArticleBody: what the server answers to BODY is not modelled here; copying the body is `YencObject.Copy`.
- ChannelRuns.WorkCompletes: starts between API calls; the enqueues of one call are one step, so a call interleaved with responses is not followed over the channels, though it cannot block them (`Channels.NeverStuck`).
- ChannelRuns.GrabAllOverChannels: likewise takes the call's own enqueues as one step.
- Channels.NeverStuck: assumes a live session on every server and a receiver of the post-processable signal that takes no lock of its own.
- EndToEnd.PrintedArticleCarries: a name whose second word is key=value is left to `YencText.SpacedName`, since such a word may turn the header into another one.
- EndToEnd.PrintedSingleCarries: as for EndToEnd.PrintedArticleCarries.
- YencRoundTrip.RoundTrip: assumes that the wrapped writer accepts every write.
- AssemblyObject.File.Assemble: a segment can be missing or the destination not creatable; other errors of the file system are not modelled, as the code ignores those of copying and removing. A destination that is one of its own segments is excluded, since the code would then append a file to itself while reading it.
- Assembly.AssembleEffect: excludes that destination too.
- Finer interleavings: each state machine method, dispatch and response is atomic; the races of the read-then-write locking are not modelled.
- Two requests in flight for one segment write to the same output file; what is then in it is not modelled.
- Closing of output files, and the files' own errors and metadata.
- Subject parsing, NZB parsing and par2 or filter matching: regular expressions and XML are inputs here.
- Done and Shutdown of a grabber, tombs, reconnecting, dialling, TLS, authentication and compression.
- Download rates, FNV hashing of names, passwords and article ID formatting; working file names are taken to be distinct.
- Slicing a line beyond its length: the prefix tests of the decoder are modelled as "starts with".
- Running par2, reading its output, the order of post-processing and the command line program.

# KCPQ in Dafny

A model of the KCPQ publish/subscribe broker and its Go client, with proofs of what its own code keeps:
the wire format, subject routing, the send queue and the running server, and the client's subscription,
acknowledgement and reconnect machinery. Go strings and byte slices are `seq<Byte>`; int64 counters wrap
explicitly (`Bytes.Wrap64`). A KCP connection is a reliable byte stream that may end.

| file | what it models |
|---|---|
| `Bytes.dfy`, `Codec.dfy` | big-endian integers, the frame format, the encoder and both parsers |
| `Utf8.dfy`, `Replies.dfy` | UTF-8 validity, `truncateUTF8`, the OK/ERR/PONG messages |
| `Subjects.dfy`, `Matching.dfy` | splitting on dots and the three wildcard matchers |
| `Tables.dfy`, `Router.dfy`, `OptimizedRouter.dfy`, `PatternCache.dfy`, `IndexRefinement.dfy` | the two routers, the pattern cache, and how the routers relate over whole runs |
| `SendQueue.dfy` | one session's outgoing queue: producers, channel, writer |
| `Broker.dfy`, `Delivery.dfy`, `Completeness.dfy`, `Agreement.dfy`, `Refusals.dfy`, `Fanout.dfy`, `Progress.dfy` | the running server and the properties of its runs |
| `Session.dfy` | the handlers as one goroutine executes them |
| `Subscription.dfy`, `Dispatch.dfy`, `Callbacks.dfy` | the client's subscriptions and receive loop, and publisher-to-callback delivery through server and client |
| `PendingAcks.dfy`, `Reconnect.dfy`, `RingBuffer.dfy` | the rest of the client |

In-place code is written with classes, arrays and loops and proved against functions. Concurrent code is a
step relation: an `Event` datatype, `Enabled`, `Do`, and an invariant carried through every run (`IsRun`,
`Exec`). A run interleaves any number of goroutines in any order; history fields record what was accepted,
handed over, refused or looked up.

Where the code differs from what it is meant to do, the difference is stated exactly:

- `Router.Match` follows the documented wildcard rules on exactly the patterns whose `>` stands last after
  literal segments (`Matching.DocumentedIffConventional`), and there it also lets `a.>` match `a`. The
  repository's README.md:180-187 gives the rules for `foo.*` and `foo.>` only. That `*` keeps its meaning
  before a final `>` and that a `>` elsewhere matches nothing is what server/router_optimized.go:182-190
  says and does; `Router.Match` takes a `*` before a trailing `.>` literally.
- The client filter is looser than the server on exactly the patterns that mix `*` with a trailing `.>`
  (`Matching.ClientLooserIff`).
- The two-map router routes like the plain one on exactly the `Regular` patterns
  (`Matching.IndexAgreesIffRegular`), and holds the same pairs throughout a run exactly when no held pair is
  subscribed again (`IndexRefinement.SamePairsIffFresh`), because its `Subscribe` does not look for duplicates.
- A "subscribed to" OK confirms its subject exactly when the subject has at most 4082 bytes, although the
  protocol allows 4096 (`PendingAcks.AckConfirmsIff`). The OK of a longer subject confirms, falsely, whatever
  entry is pending under that subject cut to 4082 bytes (`PendingAcks.AckEffect`).
- A loss reported while the reconnect loop is restoring subscriptions leaves the client disconnected for good,
  although auto-reconnect is on (`Reconnect.LossDuringRestoreIsStranded`): a lost connection can still be
  repaired exactly when some goroutine holds the loss (`Reconnect.RepairableIff`).
- Reconnect delays never shrink exactly when 1024 intervals fit in an int64 (`Reconnect.NeverShrinksIff`).

## Model

| member | source | states |
|---|---|---|
| `Codec.Encode` | protocol/protocol.go:98-121 | the bytes written at increasing offsets are the frame: body length and subject length most significant byte first, command, subject, payload, stated digit by digit |
| `Codec.ParseWithRemaining` | protocol/protocol.go:135-190 | the offset walk returns what `BufferParse` says, error kinds and the untouched input included; `ParsesIffWireForm` says byte by byte what it accepts |
| `Codec.ParseFromReader` | protocol/protocol.go:193-251 | result and unread bytes are those of `ReaderParse` on any stream, short ones included; `ParsesIffWireForm` says byte by byte what it accepts |
| `Codec.Connection.ReadFull` | protocol/protocol.go:196 | io.ReadFull: all n bytes, or everything that is left and a failure |
| `Codec.ParsersAgree` | protocol/protocol.go:135-251 | on every byte string both parsers fail, or both return the same message and leave the same bytes, body lengths 1 and 2 included |
| `Codec.RoundTrip` | protocol/protocol.go:98-190 | parsing frame ++ rest gives back message and rest exactly for messages within the subject and body limits |
| `Codec.ParsesIffWireForm` | protocol/protocol.go:135-251 | both parsers return m and leave `rest` exactly when the bytes are the four length digits, command, two subject-length digits, subject and payload of m, most significant digit first, then `rest`, with at most 4096 bytes of subject and 8388608 of body |
| `Codec.WireFormIsFrame` | protocol/protocol.go:98-121 | that layout determines the bytes: it holds of the encoder's frame and of no other string |
| `Codec.SubscribeFrame` | protocol/protocol.go:98-121 | SUB "a" is 00 00 00 04 01 00 01 61 |
| `Codec.ParseIsSound` | protocol/protocol.go:135-190 | a successful buffer parse re-encodes to exactly the bytes it consumed and is within limits |
| `Codec.ReadIsSound` | protocol/protocol.go:193-251 | the same for the reader parser |
| `Codec.FramesAreUnique` | protocol/protocol.go:98-121 | two in-limit frames with any tails are equal only if messages and tails are: the format is prefix-free |
| `Codec.StrictPrefixRejected` | protocol/protocol.go:135-251 | neither parser accepts a strict prefix of a frame |
| `Codec.UniqueDecoding` | protocol/protocol.go:193-251 | repeated reading of concatenated frames plus an unreadable tail returns exactly the messages |
| `Codec.DecodedFramesArePrefix` | protocol/protocol.go:193-251 | whatever a reader decodes from arbitrary bytes is within limits and its frames are a prefix of those bytes |
| `Utf8.ValidIffEncoding` | server/session.go:316 | the validity test accepts exactly the concatenations of encoded Unicode scalar values |
| `Utf8.TruncateUTF8` | server/session.go:311-323 | short input is unchanged; otherwise the result is the longest valid prefix of the first maxBytes bytes |
| `Utf8.TruncationOfValidText` | server/session.go:311-323 | valid text stays valid, is cut between characters, and loses at most three of the bytes that fit |
| `Utf8.BoundaryNearby` | server/session.go:315-318 | every cut position in valid text has a character boundary at most three bytes before it |
| `Replies.RepliesAreAccepted` | server/session.go:252-271 | the frame of any OK or ERR, however long the text, is accepted by both parsers; valid text arrives valid and loses at most three of the bytes that fit |
| `Replies.DecimalIsExact` | server/session.go:148 | the number in the "unknown command" text is the command byte in decimal, without leading zeros |
| `Subjects.SplitInjective` | server/router.go:94-95 | splitting on dots is injective |
| `Subjects.SplitJoin` | server/router.go:94-95 | splitting undoes joining dot-free segments |
| `Subjects.SegmentPrefix` | server/router.go:86-87 | "starts with prefix and a dot, or equals prefix" is the segment-prefix relation |
| `Subjects.RestSuffix` | server/router.go:85 | a string ends in ".>" exactly when it has two segments or more and the last is ">" |
| `Matching.Match` | server/router.go:79-125 | Match is the segment meaning for all strings; the equality shortcut and the no-wildcard exit change nothing |
| `Matching.DocumentedIffConventional` | server/router.go:79-125 | Match follows the documented rules for every subject, plus the base subject of "a.>", exactly on conventional patterns |
| `Matching.StarIsAnySegment` | server/router.go:109-124 | for every prefix, a final ".*" matches after a dot exactly the strings without a dot, on the server, on the client and, without ">" before it, in the compiled matcher |
| `Matching.RestIsAnyTail` | server/router.go:85-92 | for every prefix a, "a.>" matches exactly a and whatever starts with a and a dot; in the compiled matcher, without wildcards before it, only the latter |
| `Matching.LiteralIsExact` | server/router.go:79-125 | a pattern with no segment "*" or ">" matches itself and nothing else, on the server, on the client and in the compiled matcher |
| `Matching.MatchSubject` | client/client.go:759-791 | the client accepts what the server accepts and, beyond that, only "*"-and-".>" patterns matched segment for segment with ">" literal |
| `Matching.ClientLooserIff` | client/client.go:759-791 | some subject passes the client and not the server exactly for patterns with a "*" segment and a trailing ".>" |
| `Matching.CompilePattern` | server/router_optimized.go:60-70 | the loop records the segments and whether a whole segment is "*" or ">" |
| `Matching.MatchesSegments` | server/router_optimized.go:178-212 | the si loop accepts iff the segments match one to one, or up to a final ">" that takes one segment or more |
| `Matching.IndexAgreesIffRegular` | server/router_optimized.go:129-212 | the two-map route of a pattern equals server Match minus its base subject, for every subject, iff the pattern is regular |
| `Matching.RegularAgrees` | server/router_optimized.go:165-212 | on a regular pattern and any subject the index routes iff Match holds and the pattern is not subject + ".>" |
| `Matching.IrregularDiffers` | server/router_optimized.go:165-212 | every irregular pattern has a subject on which the routers differ |
| `Tables.CompactInPlace` | server/router.go:45-50 | appending into s[:0] of the same backing array leaves the pure filter at its front |
| `Tables.RemoveFirst` | server/router_optimized.go:116-124 | append(s[:i], s[i+1:]...) removes the first occurrence only |
| `Tables.BagIsPairs` | server/router.go:158-168 | a table without duplicate entries has one entry per pair it holds |
| `Routing.Router.Subscribe` | server/router.go:22-33 | adds the pair, keeps lists duplicate-free and keys non-empty |
| `Routing.Router.Unsubscribe` | server/router.go:36-57 | removes exactly the pair and an emptied key |
| `Routing.Router.RemoveSession` | server/router.go:60-76 | removes exactly the session's pairs and emptied keys |
| `Routing.Router.FindSubscribers` | server/router.go:128-149 | returns each session with a matching pair exactly once and no other |
| `Routing.Router.GetSubjectCount` | server/router.go:152-156 | the number of distinct patterns held |
| `Routing.Router.GetTotalSubscriptions` | server/router.go:159-168 | the cardinality of the pair set |
| `OptimizedRouting.OptimizedRouter.Subscribe` | server/router_optimized.go:82-96 | one more entry for the pair, in the table its pattern belongs to |
| `OptimizedRouting.OptimizedRouter.Unsubscribe` | server/router_optimized.go:99-125 | one entry fewer for the pair if it had one |
| `OptimizedRouting.OptimizedRouter.RemoveSession` | server/router_optimized.go:221-250 | one entry fewer for every pair of the session |
| `OptimizedRouting.OptimizedRouter.FindSubscribers` | server/router_optimized.go:129-161 | each session one of whose entries routes the subject, exactly once |
| `OptimizedRouting.OptimizedRouter.GetSubjectCount` | server/router_optimized.go:253-258 | the number of distinct patterns held over both tables |
| `OptimizedRouting.OptimizedRouter.GetTotalSubscriptions` | server/router_optimized.go:261-274 | the number of entries, duplicates included |
| `PatternCache.Cache.Lookup` | server/router_optimized.go:43-74 | returns a fresh compilation of its key and adds at most that key |
| `PatternCache.Cache.Match` | server/router_optimized.go:215-218 | cached matching equals uncached matching |
| `PatternCache.CacheCoherence` | server/router_optimized.go:43-74 | under every interleaving of lookups each key is written once, every entry is a compilation of its key, and two callers with one pattern share one compiled pattern |
| `IndexRefinement.SamePairsIffFresh` | server/router_optimized.go:82-125 | both routers hold the same pairs, once each, throughout a run iff no held pair is subscribed again |
| `IndexRefinement.SameCounts` | server/router_optimized.go:253-274 | then the totals and the pattern sets agree |
| `IndexRefinement.SubscribersDifferOnlyAtBase` | server/router_optimized.go:129-161 | after a fresh run over regular patterns the index leaves out exactly the sessions whose only matching pattern is subject + ".>" |
| `IndexRefinement.ReplayPlain` | server/router.go:22-76 | after every sequence of operations the plain router is valid and holds the set of the run |
| `IndexRefinement.ReplayIndex` | server/router_optimized.go:82-250 | after the same sequence the two-map router holds the multiset of the run |
| `SendQueue.StepInv` | server/session.go:82-98 | every step of a producer, the writer or Close keeps counter, limit and order |
| `SendQueue.OutstandingStep` | server/session.go:325-349 | a swap adds its frame to the outstanding bytes, a refund and the writer's subtraction take one away, nothing else changes them |
| `SendQueue.BackpressureHolds` | server/session.go:325-349 | in every run queuedBytes is the bytes in the channel, reserved or taken, and with a positive limit that leaves room for a frame it stays within 0..limit |
| `SendQueue.RefusedIffOverLimit` | server/session.go:331-336 | the limit check turns a producer away exactly when its frame would take the outstanding bytes over the limit |
| `SendQueue.OutcomeCauses` | server/session.go:241-349 | whatever step is taken, each outcome has its own cause and no other: closed at the call; a frame over 8388612 bytes; outstanding bytes plus frame over the limit; exactly `capacity` frames in the channel; or room in it |
| `SendQueue.ReturnsAlone` | server/session.go:325-349 | a send never blocks: from every state a producer inside returns by at most five steps of its own, undisturbed with the verdict of its limit and channel checks |
| `SendQueue.LoneSend` | server/session.go:241-349 | a call that no other overlaps is refused as closed, too large, over the limit or full in that order of precedence, and otherwise accepted, its packet then last in the channel's history |
| `SendQueue.WriterCatchesUp` | server/session.go:82-98 | from every state a live write loop hands over everything accepted by a bounded number of its own steps |
| `SendQueue.AfterClose` | server/session.go:284-299 | in every run, what is accepted after a Close is exactly the packets held by some producers already inside, each producer at most once; no later call gets in |
| `SendQueue.WrittenDecodes` | server/session.go:82-98 | what the write loop put on the wire decodes to a prefix of the accepted messages, containing all that were handed over |
| `Delivery.StepInv` | server/session.go:130-217 | every step keeps each accepted packet tied to the message it answers and each sender's packets in order |
| `Delivery.AcceptedPacket` | server/session.go:203-217 | a newly accepted packet is the one its reader is sending and that reader's first about its message |
| `Delivery.EndToEnd` | server/session.go:82-128 | in every run, what session q's peer decodes is a prefix of what q accepted, per-sender ordered, at most one frame per handled message, each with the right content |
| `Delivery.QueuesStayBounded` | server/session.go:325-349 | in every run of the whole server each queue's counter equals its outstanding bytes and stays within 0..limit |
| `Delivery.DeliveredPublish` | server/session.go:203-217 | a decodable MSG is some client's PUB with subject and payload unchanged, and q held a pattern for it that matches at the server and at the client |
| `Completeness.DeliveredOrRefused` | server/session.go:203-217 | once a reader has finished a message, every session it was due to accepted a frame about it or is on record as having refused it, never both unless it is a PING; every publish begun has its lookup on record |
| `Fanout.RouterHoldsWhatWasSent` | server/session.go:153-200 | in every run the router holds an open session, when it is not inside a SUB or UNSUB, under exactly the subjects its client sent a SUB for and no UNSUB after it |
| `Fanout.DueIffSubscribed` | server/session.go:203-217 | for every run before and after a publish, the publish is due to such a session exactly when its client has so subscribed to a pattern that matches |
| `Fanout.SubscriberGetsPublish` | server/session.go:203-217 | then, once the publisher's reader has finished the publish, the session accepted the frame or is on record as refusing it; if it stayed open with room, it accepted the frame |
| `Refusals.RoomMeansNoRefusal` | server/session.go:325-349 | from any state of any run, a session that stays open with a free channel place and room for a frame refuses no message begun from then on |
| `Refusals.NeverTooLarge` | server/session.go:241-249 | in no run does a send fail because its frame is too large |
| `Refusals.PongUnlessRefused` | server/session.go:220-222 | in every run a frame accepted about a PING is a PONG unless the session has refused a frame about that PING |
| `Progress.HandlingEnds` | server/session.go:131-217 | from every state of a run a busy reader can finish its message by its own steps alone, whatever other sessions, writers and peers do |
| `Progress.NoDeadEnd` | server/session.go:105-127 | every run can be continued so that a given reader handles everything its client has sent |
| `Agreement.SessionRouterAgreement` | server/session.go:153-200 | in every run an open session between two messages has a duplicate-free list equal to the subjects the router holds for it |
| `Agreement.RemovedFromRouter` | server/session.go:284-299 | after RemoveSession the router holds no pair of the session until its reader next calls the router for a SUB |
| `Sessions.Session.HandleSubscribe` | server/session.go:153-178 | list and router change together, agreement is kept, the reply is the truncated OK frame |
| `Sessions.Session.HandleUnsubscribe` | server/session.go:181-200 | the in-place filter and the router drop the subject, agreement is kept |
| `Sessions.Session.HandlePublish` | server/session.go:203-217 | every matching session is a target once and the one encoded frame is the MSG with the same subject and payload |
| `Sessions.EncodeOk` | server/session.go:252-260 | the frame SendOK enqueues is that of the truncated text |
| `Subscription.DrainIsComplete` | client/subscription.go:91-105 | in every interleaving callbacks run in acceptance order, and when Unsubscribe's wait returns every accepted message was handed over exactly once; an offered message is accepted or counted as dropped |
| `Subscription.DropsIffFull` | client/subscription.go:63-79 | in every interleaving a drop is counted exactly when a message is offered to an open channel that is full; with room the message goes to the end of the channel |
| `Subscription.DrainEnds` | client/subscription.go:91-105 | from every state in which Unsubscribe waits, a bounded number of steps of the processing goroutine ends the wait with every accepted message handed over |
| `Subscription.NothingAfterDrain` | client/subscription.go:63-79 | after the wait nothing more is accepted or handed over, whoever still enqueues |
| `Dispatch.StepInv` | client/client.go:201-218 | every step of the receive loop, of a subscription or of the list keeps each subscription's accepted messages tied to the incoming ones |
| `Dispatch.DispatchIsExact` | client/client.go:201-218 | in every run callbacks follow acceptance order, accepted messages are matching MSGs in arrival order, each once; drops are exactly the offers made to a full channel; a subscription is listed and active until the run removes or ends it, and while it is, the matching messages since it was listed are those accepted plus those dropped, and with none dropped exactly those |
| `Dispatch.DispatchEnds` | client/client.go:201-218 | dispatching never blocks: from every state the loop finishes with its message by a bounded number of its own steps |
| `Dispatch.WantedIff` | client/client.go:207-208 | the messages a subscription should get are the MSGs since it was listed whose subject its pattern accepts |
| `Callbacks.PublisherToCallback` | client/client.go:201-218 | for every run of server and client, each callback ran on some client's PUB, subject and payload unchanged, that the subscription's pattern accepts; one publisher's messages in order, each at most once |
| `Callbacks.EveryPublishCalledBack` | client/client.go:201-218 | in every run, a listed, active subscription that dropped nothing and has caught up with a written-out session has called back every matching publish that was due to the session, not refused, and not taken before the subscription was listed |
| `Callbacks.SubscribedIsCalledBack` | client/client.go:201-218 | from SUB to callback: a publish looked up while an open session's client has subscribed to a matching pattern is among the callbacks of the caught-up subscription to that pattern, provided the session stays open with room, its queue is written out and the subscription was listed before the frame was taken |
| `PendingAcks.NeverClosedTwice` | client/client.go:223-253 | over every interleaving of the critical sections pending channels are open, each held by one entry, and none is closed twice |
| `PendingAcks.ApplySafe` | client/client.go:344-384 | each critical section, closing without asking, keeps that |
| `PendingAcks.ApplyEffect` | client/client.go:220-253 | each critical section in terms of entries and close counts: which entry goes or comes, whose channel is closed exactly once more, and that no other entry or channel changes |
| `PendingAcks.AckTable.OnOk` | client/client.go:220-253 | the guarded code equals the guard-free section, so its guard never fires; the confirmed entry goes and its channel is closed once more |
| `PendingAcks.AckTable.OnRetry` | client/client.go:344-354 | the same for the clean-up before a retry; the old entry goes and its channel is closed once more |
| `PendingAcks.AckTable.OnRegister` | client/client.go:375-384 | a fresh open channel is pending under the subject |
| `PendingAcks.AckTable.OnForget` | client/client.go:427-429 | the entry goes, its channel is left as it is |
| `PendingAcks.AckTable.OnReplace` | client/client.go:1004-1019 | the old channel is closed once and a fresh open one takes its place |
| `PendingAcks.AckTable.OnClose` | client/client.go:596-605 | the loop closes every pending channel exactly once and empties the table |
| `PendingAcks.AckEffect` | client/client.go:220-253 | on any table the server's OK for any subject, truncated, encoded, parsed and trimmed, closes once more the channel of the entry of its text if there is one, else of the subject cut to 4082 bytes, removes that entry, and changes no other entry or channel |
| `PendingAcks.AckConfirmsIff` | client/client.go:220-253 | that OK closes the channel of its own subject's entry and removes the entry iff the subject has at most 4082 bytes; a longer one stays pending |
| `PendingAcks.UnsubscribedConfirmsNothing` | server/session.go:197 | an "unsubscribed from" OK confirms nothing but an entry pending under its whole text |
| `Reconnect.StepInv` | client/client.go:825-886 | every step keeps loops = reconnecting flag, open losses within the lost flag, and losses = successes + lost flag |
| `Reconnect.GuardsHold` | client/client.go:1071-1102 | in every run at most one reconnect loop is alive and notifications never exceed one more than successful reconnects |
| `Reconnect.RepairableIff` | client/client.go:825-886 | in every state with the connection lost, some continuation clears the loss iff a goroutine holds it: has recorded it and neither cleared nor abandoned it |
| `Reconnect.LossDuringRestoreIsStranded` | client/client.go:876-882 | a loss reported while the loop restores subscriptions ends with the connection lost and no holder, auto-reconnect on |
| `Reconnect.LoneLossIsRepaired` | client/client.go:1071-1102 | a loss reported while no loop is alive is notified once and repaired after any number of failed attempts, and everything but the counts is as before |
| `Reconnect.NeverShrinksIff` | client/client.go:853-859 | the pre-jitter delays of a loop never shrink iff 1024 times the interval fits in an int64 |
| `Reconnect.LoopDelays` | client/client.go:833-884 | the loop tries until a reconnect succeeds, its i-th delay is that of attempt i, and without overflow the delays never shrink |
| `Reconnect.DelayBounds` | client/client.go:853-859 | without overflow the delay is the interval times 1, 2, 4, ... 1024 by attempt, cut to a positive maximum; the maximum is never exceeded and the delay is constant from attempt 10 on |
| `RingBuffers.RingBuffer.Add` | client/ringbuffer.go:28-41 | the buffer stays the window of the last samples with one more sample, overwriting only the oldest when full |
| `RingBuffers.RingBuffer.ToSlice` | client/ringbuffer.go:44-63 | the last min(n, size) samples since the last Reset, oldest first |
| `RingBuffers.RingBuffer.Reset` | client/ringbuffer.go:73-80 | no samples are left |
| `RingBuffers.AverageLatency` | client/client.go:679-691 | the wrapped sum divided toward zero; between minimum and maximum whenever the exact sum fits in an int64 |
| `RingBuffers.SumIsAdditive` | client/client.go:683-686 | the sum is additive over concatenation and gives a single sample back |

## Left out

- KCP transport, AES wrappers, sockets, deadlines, timers, jitter and logging: foreign calls, I/O and randomness; a failing Write may leave any prefix of its frame on the wire.
- Server.Close, accepting connections and the server's session set: not part of the run model, whose sessions are all there from the start.
- Router and session locks: each locked section is one step; the two loads of the closed flag before a reservation are one step, since the flag never falls.
- SendMessage: a second entry into the same queue that no handler calls.
- SendOK, SendError and SendPong pass through the size check of SendEncoded in the step model; their frames are never that long.
- SendQueue.BackpressureHolds: the bound needs a limit at least one frame below the largest int64; above that only equality modulo 2^64 is stated, since the sum itself could wrap.
- Agreement.SessionRouterAgreement: says nothing of closed sessions, which a reader inside handleSubscribe can put back into the router after Close removed them.
- Fairness: that a scheduler gives a goroutine its turn is not modelled; progress is stated as what its own steps achieve. Restoring subscriptions after a reconnect is one step.
- SendQueue.ReturnsAlone: a producer whose swap keeps losing to others may go round its loop again; the bound is for its steps alone.
- Success of a client Subscribe: a superseding attempt or Close also closes its ACK channel, so it does not mean that the server answered.
- Subscription.DrainIsComplete: covers the first Unsubscribe of an active subscription; the UNSUB frame it then writes is not modelled.
- Callbacks.PublisherToCallback: covers one connection of a client; a reconnect is a new session, whose receive loop is another run.
- Statistics, configuration, buffer pool, examples and benchmarks: no hard property of their own.
- Pointer identity of cached patterns is modelled by an index into the patterns ever allocated; garbage collection is not modelled.
- Message text of parse errors: error kinds are kept, their formatted text is not.

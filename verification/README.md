# Verified models of the epoll TCP and UDP library

The library gives an application handles for TCP and UDP links and calls it back on events. Its samples add
a framing protocol over the received bytes, a timer queue, a buffer cache and an MD5 digest. This project
models the stateful cores of both and proves what they keep over every run. Run `dafny verify dfyconfig.toml`
to check it.

| files | what they model |
|---|---|
| `Framing.dfy` | the parse decision for one frame and the scan of one receive buffer, with 32-bit offsets, and with every read past the end of the buffer returning an arbitrary byte |
| `FramingStream.dfy` | a receiver over a whole run of passes, against a stream of frames and garbage that knows nothing of passes |
| `ReceivePipeline.dfy`, `ClientPipeline.dfy`, `LinkMgr.dfy` | the server's posting threads and handler thread as a transition system with one label per locked or atomic step; the client's likewise; the server and client classes, whose methods are runs of them |
| `Md5Spec.dfy`, `Md5.dfy` | MD5 as sections 3.1 to 3.5 of RFC 1321 define it; the code's padding in place, block loop, sixty-four unrolled operations, and output forms |
| `UdpSending.dfy`, `UdpConservation.dfy`, `UdpStranding.dfy`, `UdpLinks.dfy` | deferred sending: the drain worker with any number of senders, creators and destroyers, one label per locked step; where every datagram is; which can still leave; the class, whose methods are runs of the system |
| `TimerQueue.dfy` | the timer set, its operations as methods, and runs of polls |
| `CachePool.dfy` | the buffer pool on its doubly linked free list |
| `RefCount.dfy`, `RefCountAssign.dfy`, `RefCountPtr.dfy` | the reference-counting handle: every interleaving of its atomic steps; in every interleaving too, an assignment from a null handle or from itself; the class |
| `TcpLifecycle.dfy`, `TcpSafety.dfy`, `TcpLinks.dfy` | handle issue, both registries, sockets and epoll registrations on one thread whose callbacks may call the library at any event; what every run keeps; the class, whose methods are runs of the system |

A transition system (`State`, `Label`, `Enabled`, `Step`, `Run`) over-approximates the code: whatever the system
calls, other threads or callbacks may do is a label. Fields named as histories (what was posted, logged,
asked, closed) record what happened and never influence a step. A class beside it has the code's fields and
control flow, and its methods return the labels they stand for; so what is proved of all runs holds of all
sequences of calls.

Some promises turned out to hold only conditionally. Each has a lemma with the exact condition or a run in
which it fails:

* A pass over the receive buffer that ends one to three bytes into a frame can throw those bytes away, because
  the comparison with the magic word then reads past the end of the buffer. The server is faithful to a stream
  for every content of that memory if and only if no pass ends there
  (`FramingStream.FaithfulExactlyWhenCutsAllowed`). The client does not scan fewer bytes than a header, so for it
  the same holds of the passes that scan (`FramingStream.FaithfulExactlyWhenScansAllowed`).
* Catching up with a stopped clock ends if and only if no timer that is due has a zero interval
  (`Timers.CatchUpEndsExactly`).
* Assigning to a reference-counting handle that nobody is copying from can never lead, in any interleaving with
  other threads that keep to the rules below, to an access of a freed counter or object, if and only if the source
  is another handle that holds an object, or the target is null or the only holder of its object
  (`RefCountAssign.AssignmentSafeExactly`). So assigning a handle to itself is dangerous exactly when the object
  is shared: between the release and the increment the other holders may go (`RefCountAssign.SharedFaults`). A caller
  who keeps one of them is safe, and then nothing changes (`RefCountAssign.KeptHolderIsSafe`); the only holder ends
  null (`RefCountAssign.OnlyHolderIsSafe`). Assigning a null handle to a shared one leaves it attached to a counter
  in which it no longer has a share, at once (`RefCounting.AssignFromNullExactly`). The rules: an operation starts on
  an idle handle, and a source outlives, unchanged, the copy or assignment made from it.
* A link destroyed from its own CREATED callback is recorded as the first link nevertheless
  (`TcpSafety.FirstSoundExactly` says that this is the only way to a stale first handle). The stale handle is never
  replaced, and after at most ten more turns of the worker no event is dispatched any more, whatever the
  application does (`TcpSafety.RecordingStaleEndsDispatch`).
* A UDP datagram queued by a sender that found its link before the link was destroyed is accepted but can be
  stranded. The head of a queue can still leave it, if no further destruction of that link begins, if and only if the
  link is registered or a destruction is already on its way to the queue (`UdpStranding.HeadCanLeaveExactly`).

## Model

| member | source | states |
|---|---|---|
| Framing.JudgeFrame | samples/samples-server/include/link-mgr.h:97-112 | at a position the loop delivers n bytes exactly when n bytes of the buffer are a complete frame of a known type that the body reader accepts, whatever lies in memory after the buffer |
| Framing.JudgeIncomplete | samples/samples-server/include/link-mgr.h:102-105 | with at least the magic word, but not all, of a good frame in the buffer the loop stops and waits |
| Framing.JudgeNoMagic | samples/samples-server/include/link-mgr.h:97-100 | where no magic word starts one byte is skipped, unless fewer than four are left |
| Framing.JudgeExactly | samples/samples-server/include/link-mgr.h:97-122 | the four decisions by the octets at the position, each if and only if: waiting, where the magic word is seen and less than a header or the stated length is there; unknown, for a complete frame of none of the known types; delivery, where a good frame starts; skipping otherwise |
| Framing.GoodFrameExactly | samples/samples-client/include/comm-func.h:23-62 | a good frame octet by octet: magic word, one of four types and its own length, high octet first |
| Framing.ScanExactly | samples/samples-server/include/link-mgr.h:96-123 | over a whole buffer: each delivered item is the good frame at its place, each unknown report a complete frame of unknown type with the bytes after its first, each skipped byte neither; the scan ends with the buffer or where it must wait |
| Bytes.BigEndian32RoundTrip | samples/samples-client/include/comm-func.h:23-28 | a length or type field reads as w exactly when it holds the octets of w, highest first |
| Framing.JudgeStable | samples/samples-server/include/link-mgr.h:96-123 | a decision to move on is the decision the same position gets in any longer buffer with any memory behind it |
| Framing.ScanPartition | samples/samples-server/include/link-mgr.h:96-123 | delivered frames and single skipped bytes, in order, are a prefix of the buffer |
| Framing.ScanDeliversGoodFrames | samples/samples-client/include/comm-func.h:64-94 | nothing is delivered from any buffer but complete frames of known type |
| Framing.ShortScanDeliversNothing | samples/samples-client/include/comm-func.h:74-76 | fewer bytes than a header never deliver anything |
| Framing.ScanMonotone | samples/samples-server/include/link-mgr.h:96-123 | frames delivered from a buffer are a prefix of those delivered from any extension of it, for any memory behind either |
| Framing.WrappedTest | samples/samples-server/include/link-mgr.h:103 | the wrapping 32-bit length test never refuses a frame that is complete |
| Framing.ScanBuffer | samples/samples-server/include/link-mgr.h:95-123 | the loop over the offset does exactly the recursive scan, whose items are what the octets at their places call for; the bytes before the final offset are those it consumed, and it ends |
| FramingStream.ScanClean | samples/samples-server/include/link-mgr.h:96-123 | a scan of a beginning of a clean stream takes whole segments, delivers their frames and leaves no complete one |
| FramingStream.ReceiveConserves | samples/samples-server/include/link-mgr.h:69-131 | in one pass, carry-over and new bytes are consumed or carried over, in order |
| FramingStream.ReceiveKeepsSync | samples/samples-server/include/link-mgr.h:69-131 | a pass that does not scan, or does not end inside a magic word, keeps the receiver in step with the stream |
| FramingStream.RunConserves | samples/samples-server/include/link-mgr.h:69-131 | over a run of passes, consumed bytes and carry-over are all the bytes posted |
| FramingStream.ChunkingIndependence | samples/samples-server/include/link-mgr.h:69-131 | for every division of a clean stream into passes of which none that scans ends inside a magic word, exactly the complete frames are delivered, once each and in order, and an incomplete last frame is kept whole; for the server the carry-over holds nothing else but at most three bytes |
| FramingStream.BadCutLosesBytes | samples/samples-server/include/link-mgr.h:97-100 | a pass ending inside a magic word consumes the bytes of the incomplete frame when zeros follow the buffer |
| FramingStream.FaithfulExactlyWhenScansAllowed | samples/samples-client/test-client.cpp:85-132 | for any minimum up to a header's size: faithful after every pass for every content of memory, if and only if no pass that scans ends one to three bytes into a frame |
| FramingStream.FaithfulExactlyWhenCutsAllowed | samples/samples-server/include/link-mgr.h:69-131 | for the server, which scans in every pass: faithful after every pass for every content of memory, if and only if no pass ends one to three bytes into a frame |
| ReceivePipeline.NoLostWakeUp | samples/samples-server/include/link-mgr.h:47-64 | in every interleaving, staged bytes mean a positive semaphore, a poster before its sem_post, or a handler before its swap |
| ReceivePipeline.BytesConserved | samples/samples-server/include/link-mgr.h:56-83 | in every interleaving and for every link, posted bytes are consumed, carried over, swapped out or staged, in that order |
| ReceivePipeline.LinksDoNotInterfere | samples/samples-server/include/link-mgr.h:66-137 | in every interleaving each link is received as a single-link run of passes over its own chunks |
| ReceivePipeline.OnlyOwnLabelsMatter | samples/samples-server/include/link-mgr.h:149-161 | two schedules with the same posts, scans and pass boundaries of a link leave that link the same |
| ReceivePipeline.EveryLinkIsFaithful | samples/samples-server/include/link-mgr.h:41-137 | chunking independence for every link under every schedule of all links |
| ReceivePipeline.QuietMeansScanned | samples/samples-server/include/link-mgr.h:47-64 | when the handler waits on a zero semaphore and no poster is under way, every posted byte has been through a scan |
| ClientPipeline.ClientLosesNothing | samples/samples-client/test-client.cpp:60-153 | in every interleaving of posters and the handler, also with posts of nothing: staged bytes have a wake-up due, and posted bytes are consumed, carried over, taken or staged, in that order |
| ClientPipeline.ClientRunSound | samples/samples-client/test-client.cpp:73-132 | every interleaving keeps that, and the receiver is that of a run of passes with the header's size as minimum |
| ClientPipeline.QuietClientIsFaithful | samples/samples-client/test-client.cpp:60-153 | under every schedule that ends with the handler waiting at zero and no poster under way: exactly the complete frames of all the bytes posted, if no pass that scanned ended one to three bytes into a frame |
| LinkManagers.LinkMgr.DoPostRecvBuff | samples/samples-server/include/link-mgr.h:143-166 | nothing for empty data, otherwise an append and a post of the semaphore |
| LinkManagers.LinkMgr.ReceiveLink | samples/samples-server/include/link-mgr.h:69-131 | one link's part of a pass: append, scan, keep the suffix |
| LinkManagers.LinkMgr.HandleRecvBuff | samples/samples-server/include/link-mgr.h:51-133 | one turn is a wait, a swap and a scan of every staged link in ascending handle order, as a run of the transition system |
| LinkManagers.TestClient.DoPostRecvBuff | samples/samples-client/test-client.cpp:138-153 | bytes of other links are ignored; otherwise append and post, even of nothing, as a run of the client's system |
| LinkManagers.TestClient.HandleRecvData | samples/samples-client/test-client.cpp:73-132 | one turn is a wait, a swap and, unless nothing was staged, a pass with the header's size as minimum, as a run of the client's system |
| LinkManagers.TestClient.ClientIsFaithful | samples/samples-client/test-client.cpp:85-132 | chunking independence for the client after any sequence of posts and turns in which no turn that scanned ended one to three bytes into a frame; turns held back by the size guard may end anywhere |
| Md5Spec.PadLength | samples/samples-server/md5.cpp:72-80 | the padded length is the least multiple of 64 that is at least n + 9 |
| Md5Spec.PadInjective | samples/samples-server/md5.cpp:81-95 | messages of fewer than 2^61 octets with equal padded buffers are equal |
| Md5Spec.FourRounds | samples/samples-server/md5.cpp:106-109 | four operations with rotating roles replace each register once |
| Md5Spec.WordAtReads | samples/samples-server/md5.cpp:102 | a loaded word is the value of its four octets, the first the lowest; loading undoes storing and storing undoes loading |
| Md5Spec.BlockWords | samples/samples-server/md5.cpp:100-121 | word k of a block is octets 4 k to 4 k + 3 of it |
| Md5Spec.FTakesY | samples/samples-server/md5.cpp:15 | F takes y where x has ones |
| Md5Spec.FTakesZ | samples/samples-server/md5.cpp:15 | F takes z where x has zeros |
| Md5Spec.IFlips | samples/samples-server/md5.cpp:18 | I differs from y everywhere but where x has a zero and z a one |
| Md5Spec.InitialOctets | samples/samples-server/md5.cpp:97 | the registers start with the octets that section 3.3 of RFC 1321 lists |
| Md5.RotateLeft | samples/samples-server/md5.cpp:21 | the two shifts are a rotation |
| Md5.FF | samples/samples-server/md5.cpp:25-29 | adding, rotating and adding in place is b + ((a + F + x + ac) <<< s) |
| Md5.GG | samples/samples-server/md5.cpp:30-34 | the same with G |
| Md5.HH | samples/samples-server/md5.cpp:35-39 | the same with H |
| Md5.II | samples/samples-server/md5.cpp:40-44 | the same with I |
| Md5.Round1 | samples/samples-server/md5.cpp:106-121 | the sixteen unrolled steps are operations 0 to 15 of the table-driven definition, with its word order, rotations and constants |
| Md5.Round2 | samples/samples-server/md5.cpp:123-138 | likewise operations 16 to 31 |
| Md5.Round3 | samples/samples-server/md5.cpp:140-155 | likewise operations 32 to 47 |
| Md5.Round4 | samples/samples-server/md5.cpp:157-172 | likewise operations 48 to 63 |
| Md5.Transform | samples/samples-server/md5.cpp:104-177 | one turn of the block loop adds the sixty-four operations' result to the registers |
| Md5.PaddedSizeExactly | samples/samples-server/md5.cpp:72-80 | the 32-bit buffer size is the padded length if and only if the message has at most 2^32 - 73 octets; beyond, it is smaller than the message |
| Md5.LengthWords | samples/samples-server/md5.cpp:93-95 | the two 32-bit words are together the 64-bit length in bits |
| Md5.StrLen | samples/samples-server/md5.cpp:69-71 | the size of a C string is the octets before its first zero, none of them zero |
| Md5.PadInPlace | samples/samples-server/md5.cpp:72-95 | copy, one bit, zeros and length fill the buffer with exactly the padded message |
| Md5.HashBlocks | samples/samples-server/md5.cpp:97-178 | the block loop is the definition's iteration over all blocks |
| Md5.Md5OfString | samples/samples-server/md5.cpp:67-181 | for every message of up to 2^32 - 73 octets, or with size 0 every such C string, the four words are those of RFC 1321 |
| Md5.Conv | samples/samples-server/md5.cpp:184-192 | the conversion puts a word's octets in the other order |
| Md5.HexReads | samples/samples-server/md5.cpp:204 | the text form reads back as the octets, two digits each, the high one first |
| Md5.GetMd5 | samples/samples-server/md5.cpp:195-210 | the binary output, when asked for, is the digest octets of RFC 1321, the text output, when asked for, their hexadecimal form |
| UdpSending.StepKeepsWork | udp-link.cpp:108-162 | one step of any thread forgets no pending work |
| UdpSending.PendingWorkIsNeverLost | udp-link.cpp:108-162 | in every interleaving, a registered link with a non-empty queue means that the flag is up, a sender is between its push and the flag, or the pass has yet to finish the link |
| UdpSending.UninterruptedPassSettlesFlag | udp-link.cpp:110-158 | after a pass nobody interrupts, the flag is up exactly when some registered queue is non-empty, whatever sendto returned |
| UdpConservation.StepKeepsSound | udp-link.cpp:226-283 | one step of any thread keeps every datagram where it is recorded to be |
| UdpConservation.DatagramsAreConserved | udp-link.cpp:118-154 | in every interleaving a datagram is queued once, or transmitted or discarded once, never two of these, always with the bytes, address and link it was handed in with; answered true means one of them, answered false none; only an empty one is dropped unsent |
| UdpConservation.QueuesAreFifo | udp-link.cpp:125-153 | in every interleaving what was queued on a link has left it in queueing order or is queued still in that order |
| UdpConservation.StepLogsWhy | udp-link.cpp:118-154 | whatever a step logs it did: sent directly, sent from the head of the queue with data, dropped from the head because empty, or discarded by the destruction of that very link |
| UdpConservation.OnlyDestructionDiscards | udp-link.cpp:325-340 | in every interleaving in which no destruction of a link is under way or begins, none of its datagrams is discarded |
| UdpStranding.HeadCanLeaveExactly | udp-link.cpp:108-162 | in every reachable state some continuation without a new destruction of the link takes the head out of its queue, if and only if the link is registered or somebody is destroying it already |
| UdpStranding.HeadLeaves | udp-link.cpp:108-162 | that continuation: senders leave the locks, then the worker's pass reaches the link, or the destroyer empties it |
| UdpStranding.LateDatagramsStay | udp-link.cpp:265-268 | what is queued on a link after it left the registry is neither sent nor discarded unless another destruction of it begins |
| UdpStranding.LateSendHappens | udp-link.cpp:243-271 | a run in which a sender's datagram is accepted that way |
| UdpLinks.DrainedIsTail | udp-link.cpp:125-154 | a pass takes a prefix off a queue, sends at most as many as the socket takes, and stops only at one with data that the socket refused |
| UdpLinks.MsUdpLink.Drain | udp-link.cpp:124-154 | the inner loop leaves exactly that tail |
| UdpLinks.Registry.AddTcpLink | include/udp-link.h:56-62 | the next handle, a new link with an empty queue, as a run of the system |
| UdpLinks.Registry.LinkSendTo | udp-link.cpp:226-271 | without an address and not broadcasting, refused with nothing changed; otherwise answers false only on an error other than EAGAIN; on EAGAIN a copy at the end of the queue, for the port given and the address 255.255.255.255 or the one given, and the flag up; as a run of the system |
| UdpLinks.Registry.LinkDestroy | udp-link.cpp:274-283 | the queue is discarded, the link unregistered and its socket given up with one CLOSED event, however often it is destroyed; as a run of the system |
| UdpLinks.Registry.DoSendBuff | udp-link.cpp:108-162 | every registered queue is drained as far as its own socket allows, whatever the others do, and the flag says whether anything is left; nothing when the flag is down; as a run of the system |
| Timers.InsertNew | samples/samples-server/timer-queue.cpp:96-108 | inserting a new id is never rejected and only adds the timer, in its place |
| Timers.WithoutKeeps | samples/samples-server/timer-queue.cpp:85-94 | erasing an id removes that timer and keeps the rest in order |
| Timers.PeekKeeps | samples/samples-server/timer-queue.cpp:54-65 | a poll keeps the number of timers, unique ids and order, and only moves the first timer on |
| Timers.TimerQueue.SetTimer | samples/samples-server/timer-queue.cpp:26-36 | afterwards the id has exactly the new timer, all others are untouched |
| Timers.TimerQueue.KillTimer | samples/samples-server/timer-queue.cpp:38-41 | afterwards exactly the timers with other ids are left |
| Timers.TimerQueue.Peek | samples/samples-server/timer-queue.cpp:48-69 | fires exactly when a timer's start plus interval has passed, and then the one earliest by that sum and then by id, which goes back with its start one interval later; the others stay |
| Timers.TimerQueue.GetWaitTime | samples/samples-server/timer-queue.cpp:71-83 | an hour when empty, zero exactly when a poll at that instant fires, otherwise the time to the earliest deadline |
| Timers.TimerQueue.Erase | samples/samples-server/timer-queue.cpp:85-94 | the search loop removes the first timer of the id |
| Timers.EveryRunSound | samples/samples-server/timer-queue.cpp:26-69 | any sequence of sets, kills and polls keeps ids unique and the order strict, and every deadline below the latest clock reading plus 2^32, so that 64 bits suffice |
| Timers.FiringOrder | samples/samples-server/timer-queue.cpp:48-69 | for positive intervals and any clock readings, polls fire in strictly increasing order of start plus interval, and of id among equal ones |
| Timers.KthFiring | samples/samples-server/timer-queue.cpp:63-64 | the k-th firing of a timer has deadline start + k * interval, however late it is polled |
| Timers.PendingIsFloor | samples/samples-server/timer-queue.cpp:56-58 | the deadlines of a timer up to now are max(0, floor((now - start) / interval)) |
| Timers.CatchUp | samples/samples-server/timer-queue.cpp:48-69 | with the clock stopped, polling ends after each timer fired exactly that often, and every deadline left is after now |
| Timers.ZeroIntervalNeverSettles | samples/samples-server/timer-queue.cpp:58-65 | a due timer with interval zero stays due for ever |
| Timers.CatchUpEndsExactly | samples/samples-server/timer-queue.cpp:48-69 | polling a stopped clock ends if and only if no due timer has interval zero |
| CachePools.FirstFit | samples/samples-server/include/Guard.h:297-324 | the first unit in list order that is large enough, or none |
| CachePools.FirstFitUnique | samples/samples-server/include/Guard.h:297-324 | those facts determine it |
| CachePools.CachePool.CachePoolInit | samples/samples-server/include/Guard.h:280-292 | so many new free units of that size join the list, whose structure stays sound; the counters are right afterwards if and only if the pool had no units before |
| CachePools.CachePool.CachePoolGetData | samples/samples-server/include/Guard.h:294-337 | the first fit leaves the list and the rest keep their order; else a new unit of exactly the size below the limit; else NULL; used length set, both links null; free and handed-out units stay disjoint, their number is the size, which never passes the larger of limit and initial size |
| CachePools.CachePool.TakeFirstFit | samples/samples-server/include/Guard.h:297-324 | the search loop unlinks exactly the first fit |
| CachePools.CachePool.Unlink | samples/samples-server/include/Guard.h:300-318 | at the head, in the middle or at the tail, forward and backward links still describe the same list |
| CachePools.CachePool.CachePoolReturn | samples/samples-server/include/Guard.h:339-345 | an outstanding unit goes to the end of the list; NULL changes nothing |
| CachePools.CachePool.CachePoolPushBack | samples/samples-server/include/Guard.h:348-359 | appends to the list and counts it |
| CachePools.CachePool.CachePoolClear | samples/samples-server/include/Guard.h:361-382 | every free unit is deleted once, in list order |
| RefCounting.StepSound | include/Guard.h:93-177 | one atomic step of any thread keeps the counter equal to the number of handles that hold the object |
| RefCounting.ReferenceCountingIsSound | include/Guard.h:93-177 | in every interleaving no freed counter or object is touched, each object is deleted at most once, and exactly when nobody holds it any more |
| RefCounting.HeldStaysAlive | ms-epoll.cpp:132-163 | the object of a handle nobody operates on stays alive whatever happens to all other handles |
| RefCounting.AssignFromNullExactly | include/Guard.h:117-126 | an uninterrupted assignment from a null handle to one that holds an object keeps the counting sound exactly when the target was the last holder |
| RefCounting.AssignSelfExactly | include/Guard.h:117-126 | an uninterrupted self-assignment keeps the counting sound, and changes nothing if and only if there are other holders; the only holder deletes its object and ends null |
| RefCountAssign.AssignmentSafeExactly | include/Guard.h:117-126 | for every state in order, every idle source and every idle target nobody is copying from: no interleaving of the assignment with other threads ever touches a freed counter or object, if and only if the source is another handle that holds an object, or the target is null or the only holder |
| RefCountAssign.OnlyHolderIsSafe | include/Guard.h:117-126 | assigning itself or a null handle to the only holder, or to a null handle: in every interleaving the counters are right at every step, and it ends null |
| RefCountAssign.KeptHolderIsSafe | include/Guard.h:117-126 | self-assignment while some other holder is not operated on: in every interleaving the counters are right at every step, and the handle ends as it was |
| RefCountAssign.SharedFaults | include/Guard.h:117-126 | self-assignment, or assignment from a null handle, with other holders: from every such state a run in which all of these are destroyed and the handle then touches the freed counter |
| RefCountAssign.Drain | include/Guard.h:157-172 | from every state in order all operations can be finished and all handles destroyed, and no counter is left |
| RefCountAssign.AssignmentTakesFields | include/Guard.h:117-126 | in every interleaving, an assignment from another handle that holds an object ends with that handle's object and counter |
| RefCountAssign.CopyTakesFields | include/Guard.h:94-99 | in every interleaving, so does a copy, also of a null handle |
| RefCountAssign.SharedHappens | include/Guard.h:94-99 | a run to such a state, with two handles of one object and a null handle |
| RefCounting.ReleaseLast | include/Guard.h:157-172 | releasing the last handle deletes object and counter |
| RefCountPtrs.CRefCountPtr.constructor | include/Guard.h:88-92 | a new object has one holder |
| RefCountPtrs.CRefCountPtr.Copy | include/Guard.h:94-99 | one holder more |
| RefCountPtrs.CRefCountPtr.Release | include/Guard.h:157-172 | one holder fewer; the last deletes object and counter and forgets both |
| RefCountPtrs.CRefCountPtr.Assign | include/Guard.h:117-126 | from a holder: the old object loses a holder, perhaps its last, the new one gains one, also when they are the same; from a null handle: the old object loses a holder, and unless it was the last the counter stays behind; from itself: unchanged, or null and deleted when it is the only holder |
| TcpLifecycle.PackKeepsHandle | ms-epoll.cpp:231-236 | an epoll data word has the handle it was made for in its high half and the descriptor in its low half |
| TcpSafety.StepKeepsSound | tcp-link.cpp:86-138 | one step of the library or a callback keeps the invariant below |
| TcpSafety.RunKeepsSound | tcp-link.cpp:264-339 | every run keeps it: one handle for each link, equal keys in both maps, every live link registered and alone on an open descriptor, every other link's socket closed once, worker loops never entered from a callback |
| TcpSafety.ClosedAtMostOnce | tcp-link.cpp:325-339 | with callbacks that call anything at any event, each socket is closed at most once and CLOSED sent at most once, for closed sockets only |
| TcpSafety.DescriptorsHaveOneOwner | include/tcp-link.h:95-102 | every open descriptor belongs to exactly one live link, which can be found; the two maps have the same keys |
| TcpSafety.DestroyForgets | ms-epoll-tcp.cpp:67-78 | after ms_tcp_destroy the handle is not registered |
| TcpSafety.DestroyedIsNeverFound | tcp-link.cpp:73-84 | a handle once gone is never found again in any continuation |
| TcpSafety.EventsReachTheirLink | ms-epoll.cpp:130-136 | an event, however late, of a registration made by attaching or after an interrupted read, finds the link it was registered for or none, even if its descriptor has a new owner |
| TcpSafety.FreeAllEmpties | tcp-link.cpp:111-138 | if callbacks register no link, free_all_link_map ends with nothing registered and no descriptor open, though callbacks may destroy links under it |
| TcpSafety.FirstSoundExactly | ms-epoll-tcp.cpp:51-56 | the first handle stays none or registered, except at exactly one step: recording a link that its CREATED callback destroyed |
| TcpSafety.RecordingStaleEndsDispatch | ms-epoll.cpp:106-119 | in every run, once a stale first handle is recorded it stays, and after ten more turns of the worker no event is dispatched in any continuation |
| TcpSafety.StaleForever | ms-epoll.cpp:106-119 | a stale first handle stays in every continuation, and when the turns it has left are used up the worker is stuck |
| TcpSafety.StuckForever | ms-epoll.cpp:106-112 | once the worker has skipped a turn because of a stale first handle, no event is dispatched in any continuation |
| TcpSafety.StaleFirstHappens | ms-epoll-tcp.cpp:43-58 | a run that gets there |
| TcpLinks.MsTcpLinks.FindLink | tcp-link.cpp:73-84 | found exactly when registered |
| TcpLinks.MsTcpLinks.DelLink | tcp-link.cpp:86-109 | out of both maps; an unknown handle changes nothing |
| TcpLinks.MsTcpLinks.AddTcpLink | include/tcp-link.h:95-102 | the next handle, in both maps |
| TcpLinks.MsTcpLinks.LinkDestroy | tcp-link.cpp:325-339 | unregistered first; a socket it had is closed once and forgotten, with one CLOSED if self; callbacks may meanwhile have destroyed other links, and nothing else changed; a run of the system that ends |
| TcpLinks.MsTcpLinks.Callback | tcp-link.cpp:523-529 | a callback that destroys any links, also those being handled: every link is as it was or destroyed, once, with one CLOSED, and nothing else changed; a run of the system that ends |
| TcpLinks.MsTcpLinks.MsTcpDestroy | ms-epoll-tcp.cpp:67-78 | true exactly for a registered handle, unregistered afterwards; a socket it had was closed once, with exactly one CLOSED; a run of the system that ends |
| TcpLinks.MsTcpLinks.MsTcpCreate | ms-epoll-tcp.cpp:43-65 | the next handle for a new link on that descriptor, told of by CREATED, and the first handle if there was none; or the invalid one and nothing changed; a run of the system |
| TcpLinks.MsTcpLinks.MsTcpConnect | tcp-link.cpp:264-304 | true exactly when a registered link connects: it is then a connecting link, CONNECTED was sent and its socket registered if asked; a refused one has its socket closed and stays; otherwise nothing changed; a run of the system |
| TcpLinks.MsTcpLinks.MsTcpListen | ms-epoll-tcp.cpp:98-115 | a registered link with a backlog above 0 becomes a listening one; true exactly when listen works, and then registered with epoll if asked; otherwise nothing changes; a run of the system |
| TcpLinks.MsTcpLinks.OnEventRead | tcp-link.cpp:384-435 | begin, one event for each read that gives data, end; the end of the stream destroys the link, an interruption registers it once more; otherwise nothing changes but what callbacks destroy; a run of the system that ends |
| TcpLinks.MsTcpLinks.OnEventAccept | tcp-link.cpp:341-374 | exactly the descriptors before the first failure become, in order, new accepted links, in the maps, and with epoll and told of if attached; nothing else changes but what callbacks destroy; a run of the system that ends |
| TcpLinks.MsTcpLinks.KeepAlive | ms-epoll.cpp:106-119 | the turn's events are dispatched unless it is a tenth turn with a stale first handle; KEEPALIVE on a tenth turn; turns counted from 0 to 9999 |
| TcpLinks.MsTcpLinks.OnDisconnected | ms-epoll.cpp:137-143 | DISCONNECTED, then destruction without CLOSED; unregistered and without a socket afterwards |
| TcpLinks.MsTcpLinks.Handle | ms-epoll.cpp:130-165 | one event, by what it does to the links: nothing for an unregistered handle; a hang-up; accepting for a readable listening link; reading for a readable established one; a ready connecting link becomes a connected one and nothing else changes; in all other cases nothing changes; a run of the system that starts with this event and ends |
| TcpLinks.MsTcpLinks.FreeAllLinkMap | tcp-link.cpp:111-138 | with callbacks that only destroy, it ends with nothing registered and no descriptor open, every socket closed once with one CLOSED |
| TcpLinks.ByHandleAscends | tcp-link.cpp:111-138 | the links are freed in handle order |

## Left out

- Sockets, epoll, fcntl, name lookup, threads, sleeping, logging and signals: their answers are labels or parameters; the clock is a parameter.
- The bodies of packets: which bodies the deserialiser of a message type accepts is an arbitrary predicate on the bytes after the header.
- Buffers of 2^31 bytes and more: the receivers' methods and runs assume smaller ones.
- The path from TCP read events to the framing layer: the library hands out bytes in the middle events and the sample handler forwards only the end event, so the framing models start at do_post_recv_buff.
- FramingStream.ChunkingIndependence: makes no claim for passes that scan and end one to three bytes into a frame, where the code can lose bytes; FramingStream.FaithfulExactlyWhenScansAllowed has the exact condition.
- Md5.Md5OfString: a little-endian host, as the code's word loads and stores take for granted; and messages of up to 2^32 - 73 octets, beyond which Md5.PaddedSizeExactly shows the buffer too small.
- UdpConservation.QueuesAreFifo: no order between a datagram sent directly and earlier queued ones, because link_send_to tries the socket first.
- UdpStranding.HeadCanLeaveExactly: says what can happen, not that a fair scheduler makes it happen.
- UDP receiving, what the application does in a UDP callback, and the 32-bit overflow of the handle counters after 2^31 links.
- RefCounting.StepSound: assignments from a distinct, non-null handle that outlives them, and copies from a handle that outlives them; RefCountAssign.AssignmentSafeExactly has assignments from null handles and from the handle itself.
- RefCounting.ReferenceCountingIsSound: the same assignments and copies, since others can fault (RefCountAssign.SharedFaults); the converting copies and assignments use casts and are not modelled.
- RefCountAssign.AssignmentSafeExactly: one such assignment at a time among threads that keep to the rules; a target that another thread is copying from is left out.
- RefCountPtrs.CRefCountPtr.Assign: one thread; RefCounting and RefCountAssign have the interleavings.
- CachePools.CachePool.CachePoolClear: units still handed out are forgotten, as in the code; what their holders do with them afterwards is not modelled.
- TCP links from several threads at once: link_destroy has no lock of its own, and the models are single-threaded with reentrant callbacks.
- TcpLinks.MsTcpLinks.Callback: callbacks that only destroy links, so that every call ends; TcpSafety has callbacks that call anything.
- The order of events of a link (RECV_END follows CLOSED), link addresses, alive times, error records, sending over TCP with its write flag, and the timeout check, whose call is disabled.
- Broadcasting, task queues and threads, the sample programs, and the copies of these files in the other samples.

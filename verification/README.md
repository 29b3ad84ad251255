# Verification of an AES67 driver's core

A Dafny model of the parts of an AES67 audio driver and its Linux PTP grandmaster that carry state
or formats, with proofs about whole runs, round trips and refinements.  `dafny verify dfyconfig.toml`
checks all of it.

The project follows the system's own parts:

- **Ring and audio I/O.** `RingBuffer.dfy` is the single-producer single-consumer ring as an object;
  `SpscProtocol.dfy` is the same ring under two threads, every load, element copy and publication a
  step of its own and every load allowed to be stale.  `IoHandler.dfy` (de)interleaves frames over an
  array of rings; `ChannelSkew.dfy` says when the channels of a stream stay level while the client and
  the network work on them at once.
- **RTP sequence accounting.** `RtpSequence.dfy`, the test receiver's appendix A.1 and A.3
  bookkeeping of RFC 3550 against set arithmetic over unbounded packet indices.
- **Stream allocator.** `ChannelMapper.dfy` (the 128-slot owner table), `ManagerModel.dfy` (one
  function per public operation), `StreamManager.dfy` (the object, proved equal to those functions),
  and what holds over every run: `ManagerInvariants.dfy`, `ManagerFlows.dfy`, `ManagerFollow.dfy`,
  `ManagerPolicies.dfy`, `ManagerRestart.dfy`, `ManagerInterference.dfy`.  `ManagerOutcomes.dfy` says
  what each operation admits and installs in plain numbers and text; `ManagerRuns.dfy` holds two short
  runs from start-up that show where the code falls short of what it promises.
- **Session descriptions.** `SdpParser.dfy` reads and writes them (section 5 of RFC 4566, the
  ts-refclk forms of RFC 7273); `SdpRoundTrip.dfy` relates the two, `SdpGrammar.dfy` says
  what every line of other writers is read as, and `SdpSpellings.dfy` which of their descriptions are read
  alike.  `Text.dfy`, `Decimal.dfy` and
  `PacketTime.dfy` hold the splitting, number and packet-time handling.
- **Persisted JSON.** `JsonEscape.dfy`, `JsonFields.dfy` (reading a field with a regular expression),
  `JsonDocument.dfy` (why that is safe on these writers' documents), `JsonParts.dfy` and `JsonHits.dfy`
  (the same for parts cut out of such a document), `StreamIdText.dfy`, `StreamConfig.dfy`,
  `StreamConfigRoundTrip.dfy`, `SavedFields.dfy` (older and edited files), `StreamFile.dfy`, and what the file's counters make of braces and brackets
  in names: `StreamFileStrings.dfy`, `StreamFileBraces.dfy`, `StreamLayout.dfy`, `StreamFileExact.dfy`,
  `StreamFileInterface.dfy`.
- **PTP grandmaster.** `SendSchedule.dfy` (the send loop) and `ReferenceLock.dfy` (the reference's
  lock and the clockClass announced from it).
- `StreamTypes.dfy` and `Counting.dfy` are shared.

Code that updates fields in place is a class or a method with loops; what its fields become is a
function of what they were, and the theorems are about those functions, so they hold of the objects.

Where the code and its comments or documentation differ, the model follows the code:

- The reference's holdover clock is restarted by rejected edges too, so a lock on a line of glitches
  expires only once no edge at all was read for three seconds, and a lock survives any number of
  credible edges as long as no two of them are adjacent.
- A restart of a source clears the received count but neither the duplicate nor the reordering count.
- Saved transmit streams are admitted against the receive limits; the comment at that call says only
  receive streams are restored.
- The rollback of a flow group elects the grandmaster afresh.  While all streams agree on their clock
  only its spelling can change; with streams admitted while mismatches were ignored, the clock itself
  can (`ManagerRuns.FailedFlowsChangeClock`).
- A source that changes only its channel count counts as unchanged; the count is compared only once the
  transport has moved.
- Following a source is said to keep the sink's device channels.  It puts the sink back on its nominal
  block: the channels are kept exactly when the sink was on that block and no other
  (`ManagerFollow.FollowKeepsChannelsIff`), and a routed sink whose nominal block another stream holds is
  lost (`ManagerRuns.FollowLosesRoutedSink`).
- A cycle and a packet of the same stream can overlap: one channel hears silence for samples another
  channel gets in time, and the two stay apart by that much (`ChannelSkew.InterleavingSkews`).  Two level
  channels stay level through an overlap exactly when as much is queued as the cycle asks for and there is
  room for what the packets bring, or nothing moves (`ChannelSkew.OverlapKeepsLevelIff`).
- Source ports are not saved.  Flows told apart by them alone come back from a restart as senders to one
  address, with no port of their own (`ManagerRestart.FlowsApartAfterRestartIff`).
- `a=clock-domain` is written but never read into the PTP domain, so a session marked as having no
  PTP comes back on domain 0.
- A saved list with a closing brace in a name of a session or mapping never loads as it was saved.  If,
  through all names in order, a bracket stays open, the file is refused; a bracket that closes one never
  opened cuts the list short.

## Model

| member | source | states |
|---|---|---|
| SpscProtocol.Conservation | packages/aes67-core/Shared/RingBuffer.hpp:44-175 | In every state of every run, whatever the interleaving of the two threads' loads, copies and publications and however stale the loads: consumed ++ buffered == produced, never more than the capacity is queued, and the slots of the two copies in flight are disjoint and inside the buffer |
| SpscProtocol.RefinesFifo | packages/aes67-core/Shared/RingBuffer.hpp:44-108 | Each step of the two threads is a step of an unbounded FIFO: a publishing write enqueues exactly the elements its caller was told were taken, a publishing read dequeues exactly those it hands out, every other step changes nothing |
| SpscProtocol.CopiesAreDisjoint | packages/aes67-core/Shared/RingBuffer.hpp:58-66 | No slot is being written by the producer and read by the consumer at the same time |
| SpscProtocol.CopiesNeverStick | packages/aes67-core/Shared/RingBuffer.hpp:44-108 | In every run a thread that is mid-copy can always take its next step, in bounds |
| SpscProtocol.LoadTakesAll | packages/aes67-core/Shared/RingBuffer.hpp:44-56 | A load commits its write to the shorter of the data and the capacity less what the index it saw shows queued, its read to the fewer of those asked for and those shown queued; if that is nothing the call ends at once |
| SpscProtocol.WritePublishesItsLoad | packages/aes67-core/Shared/RingBuffer.hpp:44-73 | In every run each publication of a write goes back to one load, since which the producer only copied, and publishes that load's data to exactly that length, however stale the load was |
| SpscProtocol.ReadPublishesItsLoad | packages/aes67-core/Shared/RingBuffer.hpp:79-108 | In every run each publication of a read goes back to one load and hands out exactly as many of the oldest elements as that load granted |
| SpscProtocol.UndisturbedWrite | packages/aes67-core/Shared/RingBuffer.hpp:44-73 | A write on a load of the latest index that no other step comes between has the object's contract: the queue gains the longest prefix of the data that fits |
| SpscProtocol.UndisturbedRead | packages/aes67-core/Shared/RingBuffer.hpp:79-108 | Likewise a read: it gives the oldest elements, as many as asked for or all, and the queue keeps the rest |
| SpscProtocol.RunKeepsInv | packages/aes67-core/Shared/RingBuffer.hpp:44-175 | The invariant tying stored indices to running totals, and slots to what was produced, holds in every state of every run |
| SpscProtocol.WriteCopyKeepsInv | packages/aes67-core/Shared/RingBuffer.hpp:58-66 | The slot the producer overwrites belongs to no queued element and to none it copied before |
| RingIndex.AvailabilityIsDistance | packages/aes67-core/Shared/RingBuffer.hpp:159-175 | The two availability helpers measure exactly the distance between the running totals, less the sentinel slot |
| RingIndex.ChunkSlotIsPosition | packages/aes67-core/Shared/RingBuffer.hpp:57-67 | The two-chunk copy touches the slots of the next positions modulo the size, in order |
| RingIndex.AdvanceWraps | packages/aes67-core/Shared/RingBuffer.hpp:154-157 | The single-subtraction wrap is the modulus for every advance shorter than the ring |
| RingBuffer.SpscRingBuffer.constructor | packages/aes67-core/Shared/RingBuffer.hpp:24-37 | A new ring is empty and has one slot more than its capacity |
| RingBuffer.SpscRingBuffer.Write | packages/aes67-core/Shared/RingBuffer.hpp:44-73 | Appends the longest prefix of the data that fits and returns its length; contents are the old ones followed by it |
| RingBuffer.SpscRingBuffer.Read | packages/aes67-core/Shared/RingBuffer.hpp:79-108 | Moves the oldest elements, as many as asked for and queued, to the front of the caller's array, leaves the rest of that array alone and drops them from the queue |
| RingBuffer.SpscRingBuffer.Available | packages/aes67-core/Shared/RingBuffer.hpp:111-115 | The number of queued elements, always below the size |
| RingBuffer.SpscRingBuffer.AvailableToWrite | packages/aes67-core/Shared/RingBuffer.hpp:118-122 | The capacity left |
| RingBuffer.SpscRingBuffer.Reset | packages/aes67-core/Shared/RingBuffer.hpp:125-128 | The ring is empty afterwards |
| IoHandler.AES67IOHandler.ProcessInput | packages/aes67-macos-driver/Driver/AES67IOHandler.cpp:123-167 | Up to 4096 frames: every channel's interleaved samples are its ring's oldest ones followed by silence, the rings drop exactly what was read, and one underrun is counted iff some channel was short; beyond that, silence and nothing else |
| IoHandler.AES67IOHandler.ProcessOutput | packages/aes67-macos-driver/Driver/AES67IOHandler.cpp:169-196 | Every channel's ring takes the longest fitting prefix of that channel's samples; one overrun is counted iff some channel did not fit; more than 4096 frames change nothing |
| IoHandler.AES67IOHandler.Interleave | packages/aes67-macos-driver/Driver/AES67IOHandler.cpp:161-165 | Only one channel's places change, and they hold its block |
| IoHandler.AES67IOHandler.Deinterleave | packages/aes67-macos-driver/Driver/AES67IOHandler.cpp:183-185 | The block taken out is that channel's samples in frame order |
| IoHandler.LoopbackIsIdentity | packages/aes67-macos-driver/Driver/AES67IOHandler.cpp:123-196 | Through empty rings with room, whatever satisfies the input side's contract after an output is the interleaved block that went in, and the rings are empty again with no underrun |
| IoHandler.ChannelsDetermine | packages/aes67-macos-driver/Driver/AES67IOHandler.cpp:161-165 | An interleaved block is determined by its channels |
| ChannelSkew.InterleavedChannelsLevelIff | packages/aes67-macos-driver/NetworkEngine/RTP/RTPReceiver.cpp:601-660 | Every interleaving of the client's cycles with a stream's packets is a run of overlaps as its channels see it, and two channels of one capacity that start level are level after each overlap iff each found as much queued as it asks for and room for what it brings (or nothing moved); the rings end level iff the last one leaves them so |
| ChannelSkew.OverlapKeepsLevelIff | packages/aes67-macos-driver/NetworkEngine/RTP/RTPReceiver.cpp:601-660 | One end's call on the first channel, any number of calls of the other end on both, then the first end's call on the second: two level channels stay level iff nothing is asked or offered, the rings hold nothing, or the level before covers what is asked and leaves room for what is offered |
| ChannelSkew.LevelThroughoutIff | packages/aes67-macos-driver/NetworkEngine/RTP/RTPReceiver.cpp:601-660 | Over any run of overlaps the channels are level after every one of them iff each was harmless at the level it found |
| ChannelSkew.HarmlessTogether | packages/aes67-macos-driver/NetworkEngine/RTP/RTPReceiver.cpp:601-660 | Where the order of two calls on one ring does not matter, it does not matter either if they coincide and neither sees the other |
| ChannelSkew.InterleavingSkews | packages/aes67-macos-driver/Driver/AES67Device.cpp:94-99 | For rings of every capacity, the device's included, a run that does skew: a packet arriving between a cycle's reads of two channels leaves them a sample apart |
| ChannelSkew.LevelIsConserved | packages/aes67-macos-driver/Driver/AES67IOHandler.cpp:123-196 | One ring under every sequence of offers and takes from its two ends: what it holds is what it held, plus what was offered less what was asked for, plus the silence heard less the samples dropped |
| ChannelSkew.StreamsStayInStep | packages/aes67-macos-driver/NetworkEngine/RTP/RTPTransmitter.cpp:257-320 | Cycles and packets of any streams in any order, none overlapping another: two channels every one of them treats alike, as all channels of a stream are, stay level over every run, overruns and underruns included |
| ChannelSkew.CyclesAreRounds | packages/aes67-macos-driver/Driver/AES67IOHandler.cpp:123-196 | The handler's input and output cycles are such undivided rounds on one side's rings |
| RtpSequence.LossIsExact | packages/aes67-macos-driver/Tools/AES67TestReceiver.cpp:109-184 | Over every conforming arrival sequence the extended maximum is the true maximum across all 16-bit wraps, and lost() plus the duplicates counted since the start is exactly the number of indices that never arrived |
| RtpSequence.LossOfNewSource | packages/aes67-macos-driver/Tools/AES67TestReceiver.cpp:128-137 | For a source never restarted, lost() + duplicates == the number of missing indices, for every first sequence number |
| RtpSequence.LossAfterRestart | packages/aes67-macos-driver/Tools/AES67TestReceiver.cpp:149-160 | After a restart that law holds iff no duplicate had been counted before it, because the restart does not clear that counter |
| RtpSequence.RestartMiscounts | packages/aes67-macos-driver/Tools/AES67TestReceiver.cpp:149-160 | A run from the first packet on that breaks the loss law: a duplicate before a restart makes it report one index too many |
| RtpSequence.RestartBegins | packages/aes67-macos-driver/Tools/AES67TestReceiver.cpp:149-160 | Two far jumps in a row restart the record on the new sequence number; the duplicate and reordering counters survive |
| RtpSequence.ReceiverTracksTruth | packages/aes67-macos-driver/Tools/AES67TestReceiver.cpp:140-184 | Every counter and the window itself equal the set-arithmetic reference over unbounded indices, for every conforming run |
| RtpSequence.WindowClassifiesExactly | packages/aes67-macos-driver/Tools/AES67TestReceiver.cpp:161-183 | The 8192-entry window answers 'seen before?' exactly as the unbounded history would |
| RtpSequence.StillInWindow | packages/aes67-macos-driver/Tools/AES67TestReceiver.cpp:119-126 | An index still inside the reorder window has not slid out of the remembered ones (at most 198 distinct values can have followed it) |
| RtpSequence.WideGapIsNotFollowed | packages/aes67-macos-driver/Tools/AES67TestReceiver.cpp:149-160 | The forward bound is tight: a gap of 3000 or more is not followed |
| RtpSequence.SourceStats.constructor | packages/aes67-macos-driver/Tools/AES67TestReceiver.cpp:337-349 | The first packet of a source leaves it begun on that sequence number |
| RtpSequence.SourceStats.UpdateSeq | packages/aes67-macos-driver/Tools/AES67TestReceiver.cpp:140-184 | The in-place update realises the reference transition on the whole record |
| RtpSequence.SourceStats.RememberSeen | packages/aes67-macos-driver/Tools/AES67TestReceiver.cpp:119-126 | Set and order stay the same window, the oldest entry leaving both |
| RtpSequence.SourceStats.Restart | packages/aes67-macos-driver/Tools/AES67TestReceiver.cpp:109-117 | Base, maximum, cycles, window and received count start over; duplicates, reordering and restarts do not |
| ChannelMapper.GetValidationError | packages/aes67-core/NetworkEngine/StreamChannelMapper.cpp:24-65 | No error iff the mapping is valid (non-null id, counts, range, every route in range, no device channel twice); a reported route fault names a route that has it |
| ChannelMapper.StreamChannelMapper.AddMapping | packages/aes67-core/NetworkEngine/StreamChannelMapper.cpp:132-151 | Accepts iff valid and free of overlap; then map and owner table gain exactly the mapping, otherwise nothing changes |
| ChannelMapper.StreamChannelMapper.RemoveMapping | packages/aes67-core/NetworkEngine/StreamChannelMapper.cpp:153-165 | Map and owner table lose exactly that stream |
| ChannelMapper.StreamChannelMapper.UpdateMapping | packages/aes67-core/NetworkEngine/StreamChannelMapper.cpp:167-189 | Overlap is judged against everyone else; a refused update changes nothing |
| ChannelMapper.StreamChannelMapper.IsOverlap | packages/aes67-core/NetworkEngine/StreamChannelMapper.cpp:491-512 | True iff some device channel of the mapping belongs to another stream |
| ChannelMapper.StreamChannelMapper.ClaimOwners | packages/aes67-core/NetworkEngine/StreamChannelMapper.cpp:469-477 | Exactly the mapping's channels change owner |
| ChannelMapper.StreamChannelMapper.ReleaseOwners | packages/aes67-core/NetworkEngine/StreamChannelMapper.cpp:479-484 | Exactly that stream's channels become free |
| ChannelMapper.StreamChannelMapper.GetAvailableChannelCount | packages/aes67-core/NetworkEngine/StreamChannelMapper.cpp:320-322 | The size of the set of channels nobody owns |
| ChannelMapper.StreamChannelMapper.FindContiguousBlock | packages/aes67-core/NetworkEngine/StreamChannelMapper.cpp:348-374 | The lowest start of n free channels below the usable limit, and nothing exactly when there is none (a width of zero counts as one) |
| ChannelMapper.StreamChannelMapper.CreateDefaultMapping | packages/aes67-core/NetworkEngine/StreamChannelMapper.cpp:230-253 | A sequential mapping on that block, or nothing |
| ChannelMapper.DefaultIsAccepted | packages/aes67-core/NetworkEngine/StreamChannelMapper.cpp:230-253 | In a consistent mapper a default mapping under a fresh non-null id is always accepted, and there is none exactly when no free block exists |
| ChannelMapper.AddingIsConsistentIffFresh | packages/aes67-core/NetworkEngine/StreamChannelMapper.cpp:132-151 | Adding keeps the owner table the exact inverse of the mappings iff the id was not mapped before |
| ChannelMapper.RemoveUndoesAdd | packages/aes67-core/NetworkEngine/StreamChannelMapper.cpp:132-165 | Removing what was just added restores the mapper exactly |
| ChannelMapper.UpdatingIsConsistent | packages/aes67-core/NetworkEngine/StreamChannelMapper.cpp:167-189 | An accepted update keeps the owner table exact |
| ChannelMapper.UpdateRollsBack | packages/aes67-core/NetworkEngine/StreamChannelMapper.cpp:167-189 | Going back to the old mapping after an accepted update is never refused and restores map and owner table exactly |
| ChannelMapper.ChannelsAreExclusive | packages/aes67-core/NetworkEngine/StreamChannelMapper.cpp:95-108 | No device channel is in two mappings of a consistent mapper, routed ones included |
| ManagerInvariants.ReachableStatesAreExact | packages/aes67-macos-driver/NetworkEngine/StreamManager.cpp:103-428 | In every state reachable by adds, removals, transmit creation, flows, remaps, follows, restores and settings, including failed starts: the mapper holds exactly the open streams with their own mappings, the owner table is their inverse, both totals are the sums over the open streams, and every open stream matches the device rate, has 1 to 128 channels and a 239.x group |
| ManagerInvariants.ChannelsHaveOneOwner | packages/aes67-macos-driver/NetworkEngine/StreamManager.cpp:103-335 | From start-up on, an open stream lands on a device channel iff it is that channel's recorded owner, an owned channel's owner is open, and the counters never come near wrapping |
| ManagerInvariants.TotalsNeverWrap | packages/aes67-macos-driver/NetworkEngine/StreamManager.cpp:209-211 | At most 128 streams and 16384 channels a direction, so the 32-bit counters are exact |
| ManagerInvariants.OpenKeepsInv | packages/aes67-macos-driver/NetworkEngine/StreamManager.cpp:142-211 | Opening under a fresh id keeps everything exact; a refused or failed open leaves the state as it was |
| ManagerInvariants.CloseKeepsInv | packages/aes67-macos-driver/NetworkEngine/StreamManager.cpp:266-305 | Closing a stream keeps everything exact |
| ManagerInvariants.UpdateMappingIsAtomic | packages/aes67-macos-driver/NetworkEngine/StreamManager.cpp:617-672 | A remap is accepted by mapper and RTP object or leaves no trace: after a refusal by the RTP object the rollback always succeeds |
| ManagerInvariants.StreamsDetermineState | packages/aes67-macos-driver/NetworkEngine/StreamManager.cpp:103-335 | The open streams leave no freedom: mapper, owner table and totals follow from them |
| ManagerInvariants.FlowCountIsCeiling | packages/aes67-macos-driver/NetworkEngine/StreamManager.cpp:521-523 | The number of flows is the ceiling: the last one starts inside the range and they cover it |
| ManagerFlows.FlowsAreAllOrNothing | packages/aes67-macos-driver/NetworkEngine/StreamManager.cpp:481-587 | On success the flows are consecutive blocks of the requested range, pairwise different in address (or source port in the Dolby scheme), with every other stream untouched; on any failure streams, owner table and totals are those before the call, and the whole state is iff the first flow already failed or an election among the open streams gives the recorded grandmaster |
| ManagerInterference.FlowsAmidOthers | packages/aes67-macos-driver/NetworkEngine/StreamManager.cpp:481-587 | The group taken one lock at a time, under every interleaving with other operations: mapper and totals stay exact; after a failure no flow of the group is open; after a success every flow was made, and those nobody has closed since send where the group sent them, no two to one place |
| ManagerInterference.OwnStepsLeaveOthers | packages/aes67-macos-driver/NetworkEngine/StreamManager.cpp:481-587 | No step of the group, creating or undoing, changes a stream outside it or the settings: the others' streams are as the others left them |
| ManagerInterference.OthersSpare | packages/aes67-macos-driver/NetworkEngine/StreamManager.cpp:103-335 | Whatever operation somebody else runs, a stream under an identifier it does not use is closed or open as it was but for its mapping |
| ManagerInterference.AloneIsTheOperation | packages/aes67-macos-driver/NetworkEngine/StreamManager.cpp:481-587 | Without interference these steps end exactly where the one-step operation of the other theorems does |
| ManagerFlows.FlowsTileTheRange | packages/aes67-macos-driver/NetworkEngine/StreamManager.cpp:556-566 | Each block starts where the one before ends, is at most the flow width, and the last ends where the range does |
| ManagerFlows.RequestIsExact | packages/aes67-macos-driver/NetworkEngine/StreamManager.cpp:556-566 | None of the 16-bit arithmetic of a flow wraps |
| ManagerFlows.TargetsDiffer | packages/aes67-macos-driver/NetworkEngine/StreamManager.cpp:454-477 | Two flows of one request never share both address and source port |
| ManagerFlows.RollbackRestores | packages/aes67-macos-driver/NetworkEngine/StreamManager.cpp:574-580 | Removing the flows made so far restores the state exactly, with the grandmaster elected afresh iff there was a flow to remove |
| ManagerRuns.FailedFlowsChangeClock | packages/aes67-macos-driver/NetworkEngine/StreamManager.cpp:574-580 | A run from start-up after which a group failing at its second flow leaves another clock recorded than before, not just another spelling |
| ManagerPolicies.ClocksAgreeInEveryRun | packages/aes67-macos-driver/NetworkEngine/StreamManager.cpp:856-883 | While mismatches are not ignored, in every run all streams that declare a grandmaster agree after normalisation, and the active one is empty iff none declares and otherwise normalises to theirs; what that says of the names themselves is ManagerOutcomes.OneClockInEveryRun |
| ManagerOutcomes.NormalizeIffSame | packages/aes67-macos-driver/NetworkEngine/StreamManager.cpp:430-445 | Two names normalise equally iff they have the same characters in the same order, up to the case of letters, once dashes, colons and dots are passed over |
| ManagerOutcomes.SpellingDoesNotMatter | packages/aes67-macos-driver/NetworkEngine/StreamManager.cpp:430-445 | A dash, colon or dot put in anywhere, or another case for any letter, makes no other clock |
| ManagerOutcomes.OneClockInEveryRun | packages/aes67-macos-driver/NetworkEngine/StreamManager.cpp:856-883 | In every policed run all declared grandmasters, and the active one if any is declared, are spellings of one clock |
| ManagerOutcomes.SpellingIsNotJudged | packages/aes67-macos-driver/NetworkEngine/StreamManager.cpp:975-994 | A stream on the active clock is admitted iff the same stream with the active clock's own spelling is |
| ManagerOutcomes.ElectedIsFirst | packages/aes67-macos-driver/NetworkEngine/StreamManager.cpp:864-883 | The elected clock is that of the lowest identifier whose stream declares one, and none iff no stream does |
| ManagerOutcomes.AdmissionIs | packages/aes67-macos-driver/NetworkEngine/StreamManager.cpp:890-998 | In every reachable state a stream is admitted iff, in plain numbers: its rate is within a tenth of the device's, it has 1 to 128 channels and no more than are unowned, a 239. address and a port, both caps hold for the sum over the open streams of its direction, packet, profile and PTP lock allow it, and its clock is the active one in some spelling |
| ManagerOutcomes.AddOutcome | packages/aes67-macos-driver/NetworkEngine/StreamManager.cpp:115-227 | A receive stream is added iff it is admitted, its identifier is new, the completed mapping is valid and on unowned channels, and it starts; then exactly that stream, its channels, its width and, if none was active, its clock are there that were not, otherwise nothing changed |
| ManagerOutcomes.CreateTxOutcome | packages/aes67-macos-driver/NetworkEngine/StreamManager.cpp:341-428 | Likewise a transmit stream under a new identifier, with every field of the session it is announced with |
| ManagerOutcomes.RemapOutcome | packages/aes67-macos-driver/NetworkEngine/StreamManager.cpp:617-672 | A remap succeeds iff the stream is open, the RTP object accepts and the completed mapping is valid with every channel it lands on unowned or the stream's own; then the stream owns exactly the channels the caller's mapping lands on, keeps its own name and width, and has the caller's routes, block and offset; every other stream, owner, total and the clock are as before |
| ManagerOutcomes.LandsIs | packages/aes67-core/NetworkEngine/StreamChannelMapper.cpp:491-512 | The channels of a mapping are where its routes end, or its block if it has no routes |
| ManagerOutcomes.RemoveOutcome | packages/aes67-macos-driver/NetworkEngine/StreamManager.cpp:266-305 | A removal frees exactly the stream's channels and takes its width from its own direction's total |
| ManagerOutcomes.RateChangeIs | packages/aes67-macos-driver/NetworkEngine/StreamManager.cpp:1041-1056 | A rate is taken iff it lies from 44.1 to 384 kHz and every open stream is within a tenth of it; nothing else changes |
| ManagerOutcomes.WidthIsWidest | packages/aes67-macos-driver/NetworkEngine/StreamManager.cpp:513-522 | A flow may be n wide iff n is at most 64, the profile's limit and the packet's, a limit of zero counting as one |
| ManagerOutcomes.FlowAddressIs | packages/aes67-macos-driver/NetworkEngine/StreamManager.cpp:454-477 | Flow i goes to the group's address with i added to its last number while that stays a byte, and nowhere beyond |
| ManagerOutcomes.FlowAddressRefused | packages/aes67-macos-driver/NetworkEngine/StreamManager.cpp:454-477 | An address without a dot, or whose last part is not one to three digits, gives no flow anywhere to go |
| ManagerOutcomes.FlowPortIs | packages/aes67-macos-driver/NetworkEngine/StreamManager.cpp:525-545 | In the Dolby scheme flow i keeps the address and leaves from the group's port + 1 + the unit's offset + i, while that is a port |
| ManagerPolicies.InitialClocksAgree | packages/aes67-macos-driver/NetworkEngine/StreamManager.cpp:856-883 | Start-up satisfies the agreement the runs keep |
| ManagerPolicies.ReelectionKeepsClock | packages/aes67-macos-driver/NetworkEngine/StreamManager.cpp:864-883 | A re-election among agreeing streams names the same clock, possibly spelt differently |
| ManagerPolicies.CapsHoldInEveryRun | packages/aes67-macos-driver/NetworkEngine/StreamManager.cpp:919-954 | With fixed limits the receive total never passes the user's or the profile's cap in any run, nor the transmit total in runs that restore no transmit stream |
| ManagerPolicies.RestoredTransmitIgnoresCap | packages/aes67-macos-driver/NetworkEngine/StreamManager.cpp:1272-1281 | A restored transmit stream is admitted against the receive limits: afterwards the transmit caps hold iff it happened to fit them |
| ManagerPolicies.RestoredTransmitPassesCap | packages/aes67-macos-driver/NetworkEngine/StreamManager.cpp:1272-1281 | A state and a saved stream for which the transmit cap is passed |
| ManagerFollow.FollowingTwiceIsOnce | packages/aes67-macos-driver/NetworkEngine/StreamManager.cpp:734-805 | Applying the same announcement again re-points nothing, whichever re-adds failed the first time |
| ManagerFollow.ReaddAcceptedIff | packages/aes67-macos-driver/NetworkEngine/StreamManager.cpp:783-790 | The mapper takes a followed sink back iff its nominal block exists and every channel of it belongs to the sink or to nobody |
| ManagerFollow.ResubscribeOutcome | packages/aes67-macos-driver/NetworkEngine/StreamManager.cpp:783-805 | One re-subscription of any sink: it comes back iff admitted, started, given a new non-null identifier, and its nominal block is in range and its own or free; then it owns exactly that block and none of its other old channels, otherwise it is gone and its channels are nobody's; every other owner and stream is untouched |
| ManagerFollow.FollowKeepsChannelsIff | packages/aes67-macos-driver/NetworkEngine/StreamManager.h:289-300 | A sink that comes back has the device channels it had iff it was on exactly its nominal block: a sequential mapping as wide as the stream, or as many routes as channels, all inside the block |
| ManagerFollow.NominalWidthIsExact | packages/aes67-macos-driver/NetworkEngine/StreamManager.cpp:783-790 | That condition on the mapping's fields says the same as landing on exactly that block |
| ManagerFollow.OccupiedBlockLosesSink | packages/aes67-macos-driver/NetworkEngine/StreamManager.cpp:783-805 | A sink whose nominal block holds a channel of another stream is removed and not re-added, whatever else is answered |
| ManagerRuns.FollowLosesRoutedSink | packages/aes67-macos-driver/NetworkEngine/StreamManager.cpp:783-805 | A run from start-up after which an announcement loses a routed sink although its own channels were free again |
| ManagerFollow.FollowKeepsBlock | packages/aes67-macos-driver/NetworkEngine/StreamManager.cpp:783-805 | A sink on its nominal block is taken back iff admitted and started, on exactly its channels, with every other stream and owner untouched |
| ManagerFollow.FollowKeepsEveryBlock | packages/aes67-macos-driver/NetworkEngine/StreamManager.cpp:734-805 | A whole announcement with any number of such sinks, whichever were refused: every device channel is its old owner's, or that sink's under its new identifier, or nobody's if that sink was refused; every other stream is untouched, nothing else is open, and all are back iff each was admitted and started at its turn |
| ManagerFollow.BackOnItsChannels | packages/aes67-macos-driver/NetworkEngine/StreamManager.cpp:734-805 | After it, each sink that is back lands on exactly the channels it had |
| ManagerFollow.PendingIsExactlyTheFollowers | packages/aes67-macos-driver/NetworkEngine/StreamManager.h:324-363 | The sinks collected are exactly the receive streams bound to the announced source whose transport changed |
| ManagerFollow.DecisionsPartition | packages/aes67-macos-driver/NetworkEngine/StreamManager.h:324-363 | The four decisions partition all pairs by source, transport and channel count; the relation is symmetric; a source that changes only its channel count is Unchanged |
| ManagerFollow.StrangersRepointNothing | packages/aes67-macos-driver/NetworkEngine/StreamManager.h:331-347 | An announcement from an origin no sink is bound to changes nothing, whatever names and addresses it carries |
| ManagerRestart.RestartKeepsChannels | packages/aes67-macos-driver/NetworkEngine/StreamManager.cpp:1240-1387 | Saving and loading into a fresh manager: every stream open again has the channels and role it had and no source port, and a saved stream stays out only if admission refused it at its turn or it would not start; the mapper never refuses one |
| ManagerRestart.RestartBringsBackAll | packages/aes67-macos-driver/NetworkEngine/StreamManager.cpp:1240-1387 | With favourable answers, clocks in agreement, streams at least as wide in device channels as in channels and the receive limits leaving room, a restart brings back every stream, with the same mappings, the same owner of every channel and the same totals; source ports it does not |
| ManagerRestart.FlowsApartAfterRestartIff | packages/aes67-macos-driver/NetworkEngine/StreamManager.cpp:1302-1316 | Two flows of one request are apart when created, by address or source port; after a restart they are iff they were told apart by address |
| ManagerRestart.ApartAfterRestartIff | packages/aes67-macos-driver/NetworkEngine/StreamManager.cpp:1302-1316 | Two restored streams are apart iff their addresses differ |
| ManagerRestart.FileGivesBackIff | packages/aes67-macos-driver/NetworkEngine/StreamManager.cpp:1394-1424 | In every state of the manager, the text written for the open streams reads back as those streams, in order, iff the list is loadable |
| ManagerRestart.OwnChannelsAreFree | packages/aes67-macos-driver/NetworkEngine/StreamManager.cpp:1293-1299 | A saved stream not open yet finds its device channels free |
| StreamManager.StreamManager.CanAddStream | packages/aes67-macos-driver/NetworkEngine/StreamManager.cpp:890-998 | Admits iff rate, channels, packet, network, profile, both caps, PTP lock and clock all agree, as ManagerOutcomes.AdmissionIs says in plain numbers and text |
| StreamManager.StreamManager.AddStream | packages/aes67-macos-driver/NetworkEngine/StreamManager.cpp:115-227 | The whole new state and the returned id are those of the model's operation, so every run theorem holds of the object: a refused, duplicate or unstartable stream leaves no trace |
| StreamManager.StreamManager.AddStreamAuto | packages/aes67-macos-driver/NetworkEngine/StreamManager.cpp:103-113 | The fields move as for an add whose mapping is the lowest free block; null and nothing changed when there is no such block |
| StreamManager.StreamManager.RemoveStream | packages/aes67-macos-driver/NetworkEngine/StreamManager.cpp:266-305 | Mapping, owners, total and grandmaster move as in the model's removal; false and nothing changed for an unknown id |
| StreamManager.StreamManager.RemoveAllStreams | packages/aes67-macos-driver/NetworkEngine/StreamManager.cpp:307-335 | No stream, no owner, both totals zero, no grandmaster |
| StreamManager.StreamManager.CreateTxStream | packages/aes67-macos-driver/NetworkEngine/StreamManager.cpp:341-428 | The whole new state and the returned id are those of the model's operation: counted toward transmit, no trace when refused |
| StreamManager.StreamManager.CreateTxStreamFlows | packages/aes67-macos-driver/NetworkEngine/StreamManager.cpp:481-587 | The loop with its two rollback exits ends in the state and with the ids the all-or-nothing theorem speaks of |
| StreamManager.StreamManager.UpdateMapping | packages/aes67-macos-driver/NetworkEngine/StreamManager.cpp:617-672 | Committing to the mapper first and rolling back on refusal ends in the state of ManagerModel.UpdateMapping, of which ManagerInvariants.UpdateMappingIsAtomic and ManagerOutcomes.RemapOutcome speak |
| StreamManager.StreamManager.UpdateReceiveStreamsFromAnnouncement | packages/aes67-macos-driver/NetworkEngine/StreamManager.cpp:734-805 | Collecting and then re-subscribing ends in the state the follow theorems speak of, and returns how many sinks came back |
| StreamManager.StreamManager.RecomputeActiveGrandmaster | packages/aes67-macos-driver/NetworkEngine/StreamManager.cpp:864-883 | The first remaining stream in map order that declares a clock, else none |
| StreamManager.StreamManager.LoadSavedStreams | packages/aes67-macos-driver/NetworkEngine/StreamManager.cpp:1240-1387 | The whole new state is the model's after trying every saved stream in order; true iff at least one was restored |
| StreamManager.StreamManager.SetUsableChannelCount | packages/aes67-macos-driver/NetworkEngine/StreamManager.h:56-60 | The mapper's limit is clamped to 128, the receive cap is the value given |
| StreamManager.StreamManager.SetDeviceSampleRate | packages/aes67-macos-driver/NetworkEngine/StreamManager.cpp:1041-1056 | Refused outside 44.1-384 kHz or when an open stream would not match; otherwise stored |
| SdpRoundTrip.GeneratedParses | packages/aes67-core/Driver/SDPParser.cpp:92-170 | Every well-formed session, written and read back, is its normal form: a session id supplied, ttl 32 for none, the clock only if named with its domain, the clock domain as an attribute, no DSCP |
| SdpRoundTrip.ReadBackUnchangedIff | packages/aes67-core/Driver/SDPParser.cpp:523-687 | It is read back unchanged iff id, ttl, media clock and DSCP are ones a description can say, the clock is named in full or absent, and the clock domain is already stated |
| SdpRoundTrip.NormalFormIsFixedIff | packages/aes67-core/Driver/SDPParser.cpp:656-666 | The normal form is a fixed point iff the session had a clock domain to state or already stated one; a session marked as having no PTP is not |
| SdpRoundTrip.TwoTripsSettle | packages/aes67-core/Driver/SDPParser.cpp:523-687 | A second trip always reaches the fixed point |
| SdpRoundTrip.NoOriginNoSession | packages/aes67-core/Driver/SDPParser.cpp:189-210 | A description without an originating address is refused by the reader, whatever else it says |
| SdpRoundTrip.AnnouncedTransmitReads | packages/aes67-macos-driver/NetworkEngine/TxSession.h:32-63 | The session of a transmit stream cannot be read as built, and can be, to its normal form, once the origin is filled in |
| SdpRoundTrip.OriginReads | packages/aes67-core/Driver/SDPParser.cpp:189-210 | The six fields of the origin line are recovered; with an empty address the line is refused |
| SdpRoundTrip.ConnectionReads | packages/aes67-core/Driver/SDPParser.cpp:212-239 | Address and ttl are recovered from the written line; a ttl of 0 leaves the reader's as it was |
| SdpRoundTrip.MediaReads | packages/aes67-core/Driver/SDPParser.cpp:258-291 | Media, port, transport and payload type are recovered from the written line |
| SdpRoundTrip.RtpMapReads | packages/aes67-core/Driver/SDPParser.cpp:329-382 | Encoding, rate and channels are recovered for the payload type the media line selected |
| SdpRoundTrip.SourceFilterReads | packages/aes67-core/Driver/SDPParser.cpp:413-425 | The source address is recovered although the value starts with a blank |
| SdpRoundTrip.RefClockReads | packages/aes67-core/Driver/SDPParser.cpp:427-487 | Grandmaster and domain are recovered from the bare-number form, unless the name itself holds 'traceable' or the domain mark |
| SdpRoundTrip.TraceableReads | packages/aes67-core/Driver/SDPParser.cpp:427-435 | The traceable form comes back as traceable, with no grandmaster |
| SdpRoundTrip.CustomLinesRead | packages/aes67-core/Driver/SDPParser.cpp:321-326 | Every other attribute is recovered with its value, in whatever order they were written |
| SdpParser.ParseString | packages/aes67-core/Driver/SDPParser.cpp:92-170 | The line loop computes the parse that the round trips and SdpGrammar.DescriptionReads describe |
| SdpGrammar.LineReads | packages/aes67-core/Driver/SDPParser.cpp:92-487 | Every line of the grammar, of all kinds and with numbers of any size, is read as exactly what it says of the session so far, or refused: among them an rtpmap, which applies only to the selected format, a connection with or without a time to live, and a grandmaster with its domain as a bare number, as domain-nmbr or unsaid |
| SdpGrammar.DescriptionReads | packages/aes67-core/Driver/SDPParser.cpp:92-170 | A description of such lines, ended with CR LF or a bare newline line by line, is read as what its lines say in order, and accepted iff none is refused and the outcome has a name, an address, a port, a known encoding, a rate and channels |
| SdpGrammar.UnsoundIsRefused | packages/aes67-core/Driver/SDPParser.cpp:92-170 | Another version, a port or format out of range, an rtpmap with no or too many channels even for a format that is not selected, a packet time of zero or over a second, or a source filter without a source refuses the whole description wherever it stands |
| SdpGrammar.OtherFormatsDoNotMatter | packages/aes67-core/Driver/SDPParser.cpp:356-375 | Behind the media line of any description, any number of sound rtpmap lines for other formats, and lines that are no record, put in anywhere, change nothing |
| SdpGrammar.NameAlone | packages/aes67-core/Driver/SDPParser.cpp:437-487 | A grandmaster said without a domain is read as it is iff it does not end in a colon and a number |
| SdpSpellings.WrittenIsSpelt | packages/aes67-core/Driver/SDPParser.cpp:523-687 | Every session is written as exactly these lines of the grammar, in this order |
| SdpSpellings.OtherWritersRead | packages/aes67-core/Driver/SDPParser.cpp:92-487 | The session of a written description is also recovered with further formats listed on its media line, any rtpmap lines for other formats and any non-records put in behind it, lines ended either way, and its clock's domain said as a bare number or as domain-nmbr; with the domain unsaid it is recovered but for the domain, which is then 0 |
| PacketTime.PacketTimeReadsBack | packages/aes67-core/Driver/SDPParser.cpp:384-402 | Every packet time from 1 us to 1 s survives being printed as decimal milliseconds, and no other is accepted |
| PacketTime.FormatForms | packages/aes67-core/Driver/SDPParser.cpp:25-34 | The printed form is the whole milliseconds and at most three decimals, the last of them not zero |
| Text.SplitString | packages/aes67-core/Driver/SDPParser.cpp:866-876 | The getline loop yields the trimmed pieces between delimiters, with no piece after a final delimiter |
| Text.SplitJoined | packages/aes67-core/Driver/SDPParser.cpp:866-876 | Splitting undoes joining, except that an empty last part is not seen |
| Text.LinesReadBack | packages/aes67-core/Driver/SDPParser.cpp:850-864 | Lines written with CR LF are read back as they were |
| Text.EndedReadBack | packages/aes67-core/Driver/SDPParser.cpp:850-864 | Lines ended with CR LF or a bare newline, mixed at will, are read back as they were, unless a CR of the line's own stands before a bare newline |
| Text.TrimKeepsTrimmed | packages/aes67-core/Driver/SDPParser.cpp:878-886 | Trimming leaves trimmed text alone and takes a leading blank away |
| Decimal.PrintReadsBack | packages/aes67-core/Driver/SDPParser.cpp:198-203 | Every number in range is read back from its decimal form, and one out of range is not read |
| JsonEscape.UnescapeUndoesEscape | packages/aes67-core/NetworkEngine/JsonEscape.h:76-122 | jsonUnescape(jsonEscape(s)) == s for every string |
| JsonEscape.EscapedIsClean | packages/aes67-core/NetworkEngine/JsonEscape.h:32-61 | The escaped text holds no control character, and every quote in it stands behind a backslash |
| JsonEscape.JsonEscape | packages/aes67-core/NetworkEngine/JsonEscape.h:32-61 | The escaping loop computes the function the round trip is about |
| JsonEscape.JsonUnescape | packages/aes67-core/NetworkEngine/JsonEscape.h:76-122 | The unescaping loop computes the function the round trip is about |
| JsonDocument.FieldIsFound | packages/aes67-core/NetworkEngine/JsonFields.cpp:14-49 | In every document laid out by these writers the field asked for is the one found, whatever stands in the strings before it |
| JsonDocument.AbsentIsNotFound | packages/aes67-core/NetworkEngine/JsonFields.cpp:14-37 | A field the document does not have is not found, at any depth, whatever its strings say |
| JsonDocument.SkipText | packages/aes67-core/NetworkEngine/JsonFields.cpp:14-49 | No part of a string value, from its opening quote or from any quote inside it, is taken for a key |
| JsonDocument.ReadQuotedText | packages/aes67-core/NetworkEngine/JsonFields.cpp:40-49 | The string pattern captures an escaped value to its own closing quote |
| JsonDocument.CutFieldIsNotFound | packages/aes67-core/NetworkEngine/JsonFields.cpp:40-49 | A string field cut off before its closing quote is not read at all |
| JsonParts.PartGivesWholeStrings | packages/aes67-core/NetworkEngine/JsonFields.cpp:40-49 | A string field read from any part cut out of a written document, one that begins inside a string included, is a whole string of that document as it was before escaping |
| JsonParts.NoBraceIsRead | packages/aes67-core/NetworkEngine/JsonFields.cpp:40-49 | From a part that ends at its first closing brace no string with a closing brace is read, not even from an escape |
| JsonHits.HitsOfParts | packages/aes67-core/NetworkEngine/JsonFields.cpp:14-37 | A key that begins in a part of a text begins in the text: parts that do not overlap have no more of them together |
| StreamIdText.IdReadsBack | packages/aes67-core/Shared/Types.cpp:31-45 | Every identifier is read back from its own text |
| StreamIdText.ToString | packages/aes67-core/Shared/Types.cpp:59-71 | The loop writes the sixteen bytes in order with its four dashes |
| StreamIdText.FromString | packages/aes67-core/Shared/Types.cpp:31-45 | The loop reads what the round trip is about: null for a wrong length, nothing (an exception) for a pair that is no number |
| StreamConfigRoundTrip.SdpReadsBack | packages/aes67-core/NetworkEngine/StreamConfig.cpp:468-501 | All twenty persisted fields of a session come back, the others as by default |
| StreamConfigRoundTrip.MappingReadsBack | packages/aes67-core/NetworkEngine/StreamConfig.cpp:503-536 | The whole mapping comes back, identifier and routes included |
| StreamConfigRoundTrip.RoutesReadBack | packages/aes67-core/NetworkEngine/StreamConfig.cpp:515-536 | The flat list of numbers gives the routes back, pair by pair |
| StreamConfigRoundTrip.ConfigReadsBackIff | packages/aes67-core/NetworkEngine/StreamConfig.cpp:357-466 | One valid stream is read back field for field iff no string inside its two nested objects holds a closing brace |
| StreamConfigRoundTrip.ConfigReadsBack | packages/aes67-core/NetworkEngine/StreamConfig.cpp:357-466 | The reading direction of it, transmit role whatever the direction says |
| StreamConfigRoundTrip.OldLayoutReads | packages/aes67-core/NetworkEngine/StreamConfig.cpp:503-561 | A mapping written in the layout before routes comes back with every field it had, and a route is read iff it takes a stream channel to that entry of the older list, negative entries to nowhere |
| SavedFields.SessionReads | packages/aes67-core/NetworkEngine/StreamConfig.cpp:467-502 | A saved session with any of its fields, in any order: each is read for itself, a number that does not fit its field counting as none, the others are the defaults, and a packet time in the milliseconds of older files is a thousand times as many microseconds |
| SavedFields.StreamReads | packages/aes67-core/NetworkEngine/StreamConfig.cpp:358-465 | Likewise a saved stream with its nested session and mapping; one without a role, from before there was one, is a transmitter iff its session was announced sendonly or sendrecv |
| StreamFile.SavedStreamsLoad | packages/aes67-core/NetworkEngine/StreamConfig.cpp:188-355 | For every loadable list of streams, fromJSON(toJSON(cs)) is the same streams in order, every persisted field equal, the interface resolved anew |
| StreamFileExact.SavedStreamsLoadIff | packages/aes67-core/NetworkEngine/StreamConfig.cpp:188-355 | For every list without a closing brace in an interface name, fromJSON(toJSON(cs)) is the same streams in order, every persisted field equal and the interface resolved anew, iff the list is loadable |
| StreamFileInterface.CutListCanLoad | packages/aes67-core/NetworkEngine/StreamConfig.cpp:188-355 | Why that hypothesis is there: a stream on an interface named `}{` is cut in two, is not loadable, and yet loads as it was saved, if what stands before the interface is what a reader assumes and the name resolves as a missing one does |
| StreamFileExact.DescriptionIsLost | packages/aes67-core/NetworkEngine/StreamConfig.cpp:324-355 | A list whose first description a piece ends in is not loaded as saved, whatever the counter stood at: the piece with its session has no description to read |
| StreamFileExact.AtMostHits | packages/aes67-core/NetworkEngine/StreamConfig.cpp:324-355 | From no text are more streams loaded than sessions begin in it, wherever the counter cuts it |
| StreamFileStrings.LoadableIff | packages/aes67-core/NetworkEngine/StreamConfig.cpp:188-355 | Loadable, said of the strings: every stream valid, no brace in the strings of its nested objects, the braces of its description and interface paired, and the brackets paired through all strings of the list in order |
| StreamFileStrings.OpenBracketRefusesFile | packages/aes67-core/NetworkEngine/StreamConfig.cpp:303-320 | The whole file is refused iff, through all its strings in order, a bracket stays open and none closes one that was never opened |
| StreamFileBraces.LoadedIsUnbraced | packages/aes67-core/NetworkEngine/StreamConfig.cpp:324-355 | Whatever was saved, and wherever the counters cut it, no stream loaded from the file holds a closing brace in a string of its session or in its mapping's name |
| StreamFileBraces.BracedListIsLost | packages/aes67-core/NetworkEngine/StreamConfig.cpp:188-355 | So a list with a closing brace in one of those strings never loads as it was saved |
| StreamFile.LoadedStreamsReload | packages/aes67-core/NetworkEngine/StreamConfig.cpp:287-355 | What was loaded and is saved again loads as itself |
| StreamFile.ContentIsFound | packages/aes67-core/NetworkEngine/StreamConfig.cpp:290-322 | Counting brackets stops exactly at the end of the streams array iff the brackets in it balance, and finds no end iff some stay open |
| StreamFile.StreamsSplit | packages/aes67-core/NetworkEngine/StreamConfig.cpp:324-344 | Counting braces cuts the array into exactly the written streams iff in each stream the braces of its strings leave the count alone |
| StreamFile.FindMatching | packages/aes67-core/NetworkEngine/StreamConfig.cpp:303-315 | The bracket loop returns the place where the counter first comes back to zero |
| StreamFile.SplitStreams | packages/aes67-core/NetworkEngine/StreamConfig.cpp:324-344 | The brace loop yields the pieces that end where its counter returns to zero |
| SendSchedule.RateIsBounded | packages/aes67-linux-ptpd/src/Grandmaster.cpp:251-274 | For any monotone clock readings, no window of length L holds more than floor(L/P)+2 sends of a kind |
| SendSchedule.NoDriftIffPunctual | packages/aes67-linux-ptpd/src/Grandmaster.cpp:251-274 | The k-th deadline is never before start + k*P, and is exactly that iff no iteration ran more than one period late |
| SendSchedule.SendGap | packages/aes67-linux-ptpd/src/Grandmaster.cpp:251-274 | Two sends with k others between them are at least k periods apart |
| SendSchedule.NeverSilent | packages/aes67-linux-ptpd/src/Grandmaster.cpp:251-274 | Once the clock has read the start, no whole period passes without a send: the latest one is less than a period before the latest reading |
| SendSchedule.PunctualRate | packages/aes67-linux-ptpd/src/Grandmaster.cpp:251-274 | A punctual loop sends at the advertised rate: with k sends after a time T since the start, (k-1)*P <= T <= k*P |
| SendSchedule.Run | packages/aes67-linux-ptpd/src/Grandmaster.cpp:243-280 | The loop's three message kinds are sent as their own schedules say, independently, and of each the latest was sent less than its period before the latest reading once its start was reached |
| SendSchedule.IntervalIsExact | packages/aes67-profiles/Profiles/PtpIntervals.h:58-64 | Exponents -9 to 21 convert exactly and positively; every other one is refused as zero |
| SendSchedule.StartedPeriodsArePositive | packages/aes67-linux-ptpd/src/Grandmaster.cpp:46-51 | The daemon starts iff both intervals convert, and then both periods are positive, as the schedule theorems ask |
| ReferenceLock.LockIsExact | packages/aes67-linux-ptpd/src/ExternalReference.cpp:104-183 | Over every run of service calls the flag is exactly the one the edges say: ten consecutive measured in-window edges, and since then neither a measured edge nor a holdover expiry, an expiry being a call more than three seconds after the last edge read |
| ReferenceLock.LockNeedsEleven | packages/aes67-linux-ptpd/src/ExternalReference.cpp:104-183 | Over every run of service calls: if the flag stands, some ten of the channel's edges in a row were each at most 100 ns from a multiple of 1 000 000 000 ns, and the edge before them at most 500 000 ns |
| ReferenceLock.ElevenLock | packages/aes67-linux-ptpd/src/ExternalReference.cpp:104-183 | Conversely, eleven of the channel's edges within 100 ns of a whole second lock, whatever came before and however they are spread over calls, if every call comes within three seconds of the last edge read |
| ReferenceLock.OneEdgeOffUnlocks | packages/aes67-linux-ptpd/src/ExternalReference.cpp:146-181 | No lock stands once two edges in succession were read within 500 000 ns of a second, the second of them more than 100 ns off on either side |
| ReferenceLock.SilenceUnlocks | packages/aes67-linux-ptpd/src/ExternalReference.cpp:104-122 | A standing lock falls at a call more than 3 000 000 000 ns after the last edge read, unless eleven more edges wait at that call |
| ReferenceLock.NearIsDistance | packages/aes67-linux-ptpd/src/ReferenceMath.h:26-32 | Being near a whole second, said of the remainder, is being at most that far from some multiple of a second, on either side |
| ReferenceLock.TestsAreDistances | packages/aes67-linux-ptpd/src/ExternalReference.cpp:146-173 | The reference's two tests of an edge are distances of at most 500 000 ns and 100 ns from a whole second |
| ReferenceLock.ExpiryIsExact | packages/aes67-linux-ptpd/src/ExternalReference.cpp:104-122 | The reference expires its lock at a call iff the history so far says locked and the last edge of the channel was read more than three seconds before |
| ReferenceLock.RisesOnTenth | packages/aes67-linux-ptpd/src/ExternalReference.cpp:155-181 | The lock rises only on the edge completing ten good ones, so after eleven credible edges in a row |
| ReferenceLock.FallsExactlyOn | packages/aes67-linux-ptpd/src/ExternalReference.cpp:110-181 | It falls exactly on an expiry or on a measured edge that does not itself complete ten good ones |
| ReferenceLock.SurvivesUnmeasured | packages/aes67-linux-ptpd/src/ExternalReference.cpp:146-159 | A rejected edge does not end the lock, nor does anything after it until two credible edges come in succession or holdover expires |
| ReferenceLock.AlternatingEdgesKeepLock | packages/aes67-linux-ptpd/src/ExternalReference.cpp:146-159 | Edges rejected every other time keep a lock for ever, however many credible ones pass |
| ReferenceLock.RejectedEdgeHoldsOff | packages/aes67-linux-ptpd/src/ExternalReference.cpp:138-153 | A rejected edge restarts the holdover clock |
| ReferenceLock.GlitchesKeepLock | packages/aes67-linux-ptpd/src/ExternalReference.cpp:104-183 | A standing lock over any stretch of calls, each with any number of edges, none credible, or none at all: it stands at the end iff at every call some edge had been read within three seconds |
| ReferenceLock.ExternalReference.Service | packages/aes67-linux-ptpd/src/ExternalReference.cpp:104-183 | Holdover first, then every pending edge of the channel, on the whole record; nothing when disabled |
| ReferenceLock.ExternalReference.Take | packages/aes67-linux-ptpd/src/ExternalReference.cpp:132-182 | One edge, on the whole record; an edge of another channel changes nothing |
| ReferenceLock.Grandmaster.FollowTheReference | packages/aes67-linux-ptpd/src/Grandmaster.cpp:190-209 | After every turn the announced clockClass is 13 iff the reference's flag stood at that service, 248 otherwise |
| ReferenceLock.OffsetFromSecondBoundary | packages/aes67-linux-ptpd/src/ReferenceMath.h:26-32 | The one value in [-500 ms, 500 ms) congruent to the edge modulo a second |
| ReferenceLock.SplitStep | packages/aes67-linux-ptpd/src/ExternalReference.cpp:193-199 | Seconds and non-negative nanoseconds that add up to the correction, for either sign |

## Left out

- Sockets, multicast, ioctls, hardware clocks, interface detection, file access and threads other than the ring's two: what they answer comes in as parameters (`Env`, `Attempt`, clock readings, pending edges, `resolve`).
- The byte budget of a packet, the compatibility profiles and the RTP receiver and transmitter: their answers are the booleans of `Env`, the per-flow width and `rtpAccepts`.
- C++ memory ordering beyond per-variable coherence: publication is one step, and a load returns any value not older than the last one that thread saw.
- Floating point: samples are opaque, packet times are exact decimals, rates are reals.
- PacketTime.Parse: reads decimal numerals only; an exponent, hexadecimal, infinity or not-a-number is not modelled.
- ManagerFlows.FlowsAreAllOrNothing: the group is one step; what holds when other callers come between two flows is ManagerInterference.FlowsAmidOthers.
- ManagerFollow.FollowingTwiceIsOnce: the round is one step; the code releases its lock between removing and re-adding a sink.  Its steps taken one by one are removals and adds, so ManagerInvariants.ReachableStatesAreExact covers every interleaving of them.
- ManagerFollow.FollowKeepsEveryBlock: likewise one step; another caller could take a sink's channels between its removal and its re-add.
- StreamManager.StreamManager.AddStreamAuto: the default mapping and the add are one step; the code takes its lock twice, so another caller could take the block in between.
- ChannelSkew.InterleavedChannelsLevelIff: both ends go over the two channels in the same order, as the handler and a mapping with rising device channels do, and a call on one ring is one step; of two calls on one ring at the same moment ChannelSkew.HarmlessTogether speaks.  Decoding, packet assembly and jitter handling are not part of it.
- ManagerInvariants.ReachableStatesAreExact: asks that generated transmit identifiers are not in use, which the code does not test for; receive identifiers it does test, and the model with it.
- RtpSequence.LossIsExact: runs shorter than 2^63 packets, so that the signed difference does not overflow.
- SdpRoundTrip.GeneratedParses: words without white space, one-line names, attribute keys that are neither reserved nor hold a colon; sessions outside that are not covered, except those without an originating address.
- SdpGrammar.DescriptionReads: fields are parted by one blank and numbers are plain decimals; white space inside a line beyond that, signs and text behind a number, which the reader tolerates, are not in the grammar.
- SavedFields.StreamReads: documents laid out as the writer lays them out, with each field holding its own kind of value and no closing brace inside the nested objects.
- StreamFileExact.SavedStreamsLoadIff: lists with a closing brace in an interface name, for which it fails (StreamFileInterface.CutListCanLoad); that loadable ones among them load is StreamFile.SavedStreamsLoad.
- PersistedSdp fields: time range, network and address types, media type, transport, DSCP, traceability and custom attributes are not in the file and come back as defaults.
- The PTP slave, the servo, delay responses, NMOS, SAP, device start-up, user interfaces, tools and logging: wiring and presentation, or easy members.
- `StreamChannelMapper`'s own JSON, the settings managers and the second unescaper in the NMOS settings: not on the persistence path.
- Callbacks, auto-save, timestamps and statistics of the stream manager: no effect on the modelled state.

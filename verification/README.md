# Verification model of the message transport

The repository moves messages between processes through named blocks of shared memory.
This project models its three connected parts and proves what they keep.

**The shared-memory block protocol.** `ProtocolModel` is a step relation over any number of
publishers, subscribers and topics. Each process has a program counter inside
`reallocateBlock`, `serialize`, `wait_data` or `findHandle`; a step is one mutex operation,
one counter update, one wait or notify, one test, or one access to a slot, and the payload
moves one byte a step. `check_clients` and `check_global_clients` test once, as in the code.
`ProtocolControl`, `ProtocolData`, `ProtocolAccess`, `ProtocolLiveness` and `ProtocolProgress` hold
for any number of processes: mutual exclusion, exact client counters, no lost wake-up, stale
handles detected and every access inside the live block, progress unless a stream overruns, and
a bound on every schedule. `ProtocolOrder` and `ProtocolSent` say that deliveries come in order and
that only what was sent is published. `ProtocolStreams` says when no stream overruns, and
`ProtocolWaits` who can ever wait for the global clients. `ProtocolExclusion`, `ProtocolDelivery` and
`ProtocolLengths` are about a topic with one publisher and one subscriber. `ProtocolScenarios`,
`ProtocolTurns`, `ProtocolBreaks` and `ProtocolCrowds` put runs of the same model together from any
initial state, and `ProtocolExactness` and `ProtocolMixing` use them to give the exact conditions
under which exclusion, whole deliveries, streams and progress fail.
`ProtocolSolo` says what the routines amount to when nobody interferes, which `TableRefinement`
ties to the sequential class.

**The block table, publisher and subscriber.** `Descriptor`, `BlockTable` and `Publishing` are
classes with the source's fields, loops and in-place updates: 100 slots over a segment of named
byte arrays, whose references stand for block addresses.

**Serialization.** `Serialization`, `SerializationLaws`, `ReadingLaws`, `Layout` and `Streams` embed the types the
templates can be instantiated at (scalars, bool, string, vectors, arrays, messages as field
lists), with the element-by-element and the one-memcpy form of each serializer side by side, the
separately computed 32-bit length, and streams that move a cursor over an array. `RawMessages`
is the message whose payload is the rest of the stream.

**TimestampSync.** `TimestampSync`, `Kalman`, `FilterRuns` and `FilterClock` are the clock filter: the
class with its in-place covariance update, the matrix form it must equal, what holds over every
sequence of samples, and what its users see of it: the next timestamp in terms of the last, which
samples count, and what the two frequencies mean. Doubles are real numbers and timestamps integers;
the truncation of the estimate is kept.

Where code and comments differ, the code is followed. Findings worth knowing:

- A vector of scalars whose bytes number 2^32 or more is written and read with a byte count taken
  modulo 2^32. The memcpy forms write what the loops write exactly when there is no such vector
  (`Serialization.FastWriteExactly`), and read what the loops read exactly unless they accept a value
  with such a vector, which the loops refuse (`ReadingLaws.FastReadExactlyAll`).
- A subscriber can be delivered bytes that nobody sent. With one publisher and one subscriber on the
  topic that takes messages of two lengths; with more of either, messages of one length are enough
  (`ProtocolMixing.UnsentExactly`). On a one-to-one topic a delivery can differ from the message the
  reader was woken for exactly when two messages that follow each other differ in length
  (`ProtocolExactness.TearsExactly`).
- A publisher can write over bytes being read, because the counter is not looked at again after a
  wait: possible on a topic with users of both kinds exactly when it has two readers or two publishers
  (`ProtocolExactness.ExclusionExactly`).
- A message whose serialized length is 2^32 or more always overruns its stream
  (`Publishing.SharedmemPublisher.PublishMsg`). A shorter one can overrun exactly on a topic with two
  publishers and messages of two lengths (`ProtocolExactness.OverrunsExactly`).
- An overrun leaves `serialize` without giving up the global registration, after which whoever waits
  for the global clients waits forever (`ProtocolLiveness.OverrunWedges`). Nothing else stops the
  protocol (`ProtocolLiveness.StuckOnlyByOverrun`), so it can deadlock exactly when some topic has two
  publishers and somebody, on any topic, can come to that wait: a publisher whose block can still grow
  or a subscriber that has no handle yet (`ProtocolExactness.DeadlocksExactly`).
- Without memory for a new topic's block, `allocateBlock` leaves an active slot that has no block
  (`BlockTable.SharedMemoryBlock.AllocateBlock`).
- A reset sets a slot's resize count back to 0. When the slot has been taken again, a handle from
  before that is not used in between is told apart for good exactly if its count is 0 or above every
  count the slot gets to; otherwise it passes for a live one as soon as the slot has grown to its
  count (`BlockTable.ResetLosesHandles`), and then stays on its old address until the block grows
  (`BlockTable.ReallocatedIsLive`).
- A publisher that goes on with a handle whose slot was reset, and is not taken again, gets a block
  under the empty name in a slot that stays inactive (`BlockTable.SharedMemoryBlock.ReallocateBlock`).
- `resetBlock` takes a slot's mutex before it looks at the handle, so it must not be called with
  the handle an unconnected client holds (index 2^32 - 1).

## Model

| member | source | states |
|---|---|---|
| ProtocolControl.MutualExclusion | include/message_transport/sharedmem/SharedMemoryBlock.h:64-120 | in every run of any number of processes, two processes inside a section of the same mutex are the same process |
| ProtocolControl.ClientAccounting | include/message_transport/sharedmem/SharedMemoryBlock.h:152-169 | in every run both counters equal the number of processes between registering and unregistering, so neither assertion on a negative counter can fail, and a reader registered globally is registered on its slot |
| ProtocolControl.NoLostWakeup | include/message_transport/sharedmem/SharedMemoryBlockDescriptor.h:34-59 | in every run a process waiting un-notified for clients to leave has one to wait for, and the step that brings the counter to zero notifies every waiter |
| ProtocolControl.WaitEndsOnlyByNotify | include/message_transport/sharedmem/SharedMemoryBlock.h:143-149 | a process in an untimed wait changes only by being notified |
| ProtocolControl.ControlStep | include/message_transport/sharedmem/SharedMemoryBlock.h:94-169 | every step of every process keeps mutex ownership, counters and waits consistent with where the processes are |
| ProtocolControl.RoutinesAreDisciplined | include/message_transport/sharedmem/SharedMemoryBlock.h:64-120 | at every location the slot mutex is taken before the global one, each at most once, and a globally registered client asks for no slot mutex |
| ProtocolLiveness.StuckOnlyByOverrun | include/message_transport/sharedmem/SharedMemoryBlock.h:64-169 | in every run, when some process is neither idle nor waiting for data and none can execute its next instruction, a publisher has left serialize by an overrun and a process waits for the global clients |
| ProtocolStreams.DeadlockFreedom | include/message_transport/sharedmem/SharedMemoryBlock.h:64-169 | when every topic has one publisher or messages of one length: in every run, whenever some process is neither idle nor waiting for data, some process can execute its next instruction |
| ProtocolStreams.EverybodyFinishes | include/message_transport/sharedmem/SharedMemoryBlock.h:64-169 | then also, from every state of every run, finitely many steps, with no routine beginning and no wait expiring, end with every process idle or waiting for data |
| ProtocolProgress.SchedulesAreBounded | include/message_transport/sharedmem/SharedMemoryBlock.h:64-169 | from every state of every run, no list of steps is longer than the work left in it, whoever takes them and whether or not a stream overruns |
| ProtocolExactness.DeadlocksExactly | include/message_transport/sharedmem/SharedMemoryBlock.h:94-149 | from an initial state a run to a deadlock exists exactly if some topic has two publishers and some process can come to wait for the global clients (a publisher whose block is shorter than 2^32 - 1 bytes, a subscriber without a handle) |
| ProtocolWaits.NobodyWaits | include/message_transport/sharedmem/SharedMemoryBlock.h:143-149 | where no process is of that kind, nobody waits for the global clients in any run |
| ProtocolLiveness.GlobalClientProceeds | include/message_transport/sharedmem/SharedMemoryBlock.h:159-169 | when no stream has overrun, the global mutex is free and a client is registered globally, some process can step |
| ProtocolLiveness.OverrunWedges | include/message_transport/sharedmem/SharedMemoryBlock.h:94-120 | once a publisher has left serialize by an overrun, a process waiting for the global clients stays as it is in every continuation of the run; DeadlocksExactly reaches such a state |
| ProtocolStreams.NoStreamOverrun | include/message_transport/sharedmem/sharedmem_publisher.h:26-38 | on a topic with one publisher, or with messages of one length, and any number of subscribers, no publisher ever runs out of the stream sized by reallocateBlock |
| ProtocolExactness.OverrunsExactly | include/message_transport/sharedmem/sharedmem_publisher.h:34-37 | with messages of given lengths a run to an overrun exists exactly if the topic has two publishers and there are two lengths |
| ProtocolAccess.StaleHandlesAreDetected | src/sharedmem/SharedMemoryBlock.cpp:91-134 | in every run of any number of processes a handle's count is at most its slot's and a level count means the pointer is the live block; after its refresh a publisher and a reader point at the live block at every location, and every byte a reader loads or a publisher stores lies inside it |
| ProtocolAccess.BlockStaysUnderReader | include/message_transport/sharedmem/SharedMemoryBlock.h:84-91 | in every run no step of any process replaces the block, or changes its length, under a globally registered reader of the topic, who holds no mutex |
| ProtocolData.ResizeCountFollowsBlock | src/sharedmem/SharedMemoryBlockDescriptor.cpp:15-23 | in every step of every run the resize count rises exactly when the block is destroyed and built anew, and the recorded size never exceeds the block |
| ProtocolExclusion.ReaderWriterExclusion | include/message_transport/sharedmem/SharedMemoryBlockDescriptor.h:34-77 | on a topic with one publisher and one subscriber, a step of any run that changes the descriptor, the block or its bytes is the publisher's and finds nobody registered on the slot |
| ProtocolDelivery.InOrderUntornDelivery | include/message_transport/sharedmem/SharedMemoryBlock.h:63-120 | on such a topic deliveries are of published messages with strictly increasing numbers, and a delivery is that message byte for byte exactly when it has its length |
| ProtocolOrder.InOrderDelivery | include/message_transport/sharedmem/SharedMemoryBlock.h:63-120 | on a topic with any publishers and subscribers every delivery is made for a published message, and for a newer one than every delivery to that subscriber before: none twice, none out of order |
| ProtocolSent.PublishedWasBegun | include/message_transport/sharedmem/sharedmem_publisher.h:26-38 | in every run what is published on a topic is a message whose publish on it began |
| ProtocolLengths.EqualLengthDelivery | include/message_transport/sharedmem/SharedMemoryBlock.h:63-120 | if all messages of the topic have one length, every delivery is one of the published messages, in order and at most once |
| ProtocolExactness.TearsExactly | include/message_transport/sharedmem/sharedmem_publisher.h:34-37 | for any one-to-one topic in any initial state and any list of messages: some run publishing a prefix of the list delivers something other than the message the reader was woken for, exactly if two adjacent messages differ in length |
| ProtocolMixing.UnsentExactly | include/message_transport/sharedmem/SharedMemoryBlock.h:63-138 | from any initial state and for any set of message lengths: some run delivers to a subscriber of the topic bytes that nobody sent on it exactly if the topic has users of both kinds and, having one of each, there are two lengths, or, having more, any length |
| ProtocolExactness.ExclusionExactly | include/message_transport/sharedmem/SharedMemoryBlockDescriptor.h:34-39 | from any initial state some run changes the block or descriptor of a slot under a registered reader exactly if the slot has a publisher, a subscriber and not just one of each |
| ProtocolCrowds.TwoReadersBreak | include/message_transport/sharedmem/SharedMemoryBlockDescriptor.h:34-39 | any publisher and any two readers of a topic have a run in which the publisher, released by the first reader, writes its next byte under the second |
| ProtocolCrowds.TwoPublishersBreak | include/message_transport/sharedmem/SharedMemoryBlockDescriptor.h:34-39 | any two publishers and any reader of a topic have a run in which a publisher released from its wait is overtaken by the other and writes under the reader that was woken |
| ProtocolCrowds.MixesOnStage | include/message_transport/sharedmem/SharedMemoryBlockDescriptor.h:34-39 | a publisher released from its wait and a reader that registers before it resumes have a run in which the reader delivers the first byte of the old message and the rest of the new one, of the same length |
| ProtocolScenarios.PublishRuns | include/message_transport/sharedmem/sharedmem_publisher.h:26-38 | whenever no mutex is held and nobody registered, a whole publish can be run to its end from any handle and block |
| ProtocolSolo.PublishAlone | include/message_transport/sharedmem/sharedmem_publisher.h:26-38 | a publish nobody interferes with ends with the slot sized for the message, the block starting with it and the waiting readers notified |
| ProtocolSolo.ReallocateAlone | src/sharedmem/SharedMemoryBlock.cpp:91-136 | reallocateBlock alone leaves the handle on the live block and the slot sized for the message, whether the handle was stale or the block too short |
| ProtocolSolo.SerializeAlone | include/message_transport/sharedmem/SharedMemoryBlock.h:94-120 | serialize alone overwrites the first bytes of the block, keeps those behind, and notifies both conditions |
| ProtocolSolo.OverrunAlone | include/message_transport/serialization/serialization.h:522-532 | a message longer than the slot's size makes serialize, running alone, throw after the timestamp, releasing the slot mutex and staying registered globally |
| ProtocolSolo.ReceiveAlone | include/message_transport/sharedmem/SharedMemoryBlock.h:84-91 | a registered reader alone delivers the first `size_` bytes of the live block from any handle and releases every waiter |
| ProtocolSolo.RegisterAlone | include/message_transport/sharedmem/SharedMemoryBlock.h:66-83 | a woken reader registers on the slot and then globally, and releases the mutexes |
| ProtocolSolo.ReallocateWaits | src/sharedmem/SharedMemoryBlock.cpp:97-99 | reallocateBlock on a slot with a reader waits before it looks at anything, without the mutex |
| ProtocolSolo.StaleWaits | src/sharedmem/SharedMemoryBlock.cpp:103-106 | a publisher with a stale handle waits for the global clients before it looks its block up, holding the slot |
| ProtocolSolo.GrowWaits | src/sharedmem/SharedMemoryBlock.cpp:115-118 | a publisher whose block is too short waits for the global clients before it destroys it, holding the slot |
| ProtocolSolo.SerializeWaits | include/message_transport/sharedmem/SharedMemoryBlock.h:97-99 | serialize on a slot with a reader waits, without the mutex |
| ProtocolSolo.FindWaits | src/sharedmem/SharedMemoryBlock.cpp:15-17 | findHandle waits for the global clients |
| ProtocolSolo.ExpiredAlone | include/message_transport/sharedmem/SharedMemoryBlock.h:70-72 | a reader whose wait for data has run out leaves with nothing |
| TableRefinement.ReallocateRefines | src/sharedmem/SharedMemoryBlock.cpp:91-136 | the table after the class's reallocation is represented by the step model's slot after its own, and every handle remains recognisable in the same way |
| TableRefinement.PublishIsARun | include/message_transport/sharedmem/sharedmem_publisher.h:26-38 | the class's publish leaves the table as an uninterrupted publish of the step model leaves the slot |
| TableRefinement.ReceiveIsARun | include/message_transport/sharedmem/SharedMemoryBlock.h:84-91 | the class's receive reads the message that an uninterrupted receive of the step model delivers, fails exactly when that is shorter than 8 bytes, and ends with the like handle |
| TableRefinement.FindIsARun | src/sharedmem/SharedMemoryBlock.cpp:15-31 | the class's lookup of a topic returns a handle like the one the step model's lookup returns |
| Descriptor.GrowingCountsOnce | src/sharedmem/SharedMemoryBlockDescriptor.cpp:15-23 | growing a slot raises its 32-bit resize count by one without wrapping |
| Descriptor.SharedMemoryBlockDescriptor.RecordNewSize | src/sharedmem/SharedMemoryBlockDescriptor.cpp:15-23 | the whole slot record after recording a size |
| BlockTable.FullExactly | src/sharedmem/SharedMemoryBlock.cpp:54-66 | all slots are active exactly when the segment holds 100 blocks |
| BlockTable.HandlesStayDetectable | src/sharedmem/SharedMemoryBlock.cpp:101-112 | a handle stays recognisable as stale or live through any sequence of operations without a reset |
| BlockTable.RebuiltKeeps | src/sharedmem/SharedMemoryBlock.cpp:43-46 | a block built anew keeps names distinct, slots and blocks in bijection, recorded lengths right and every other topic untouched, and its topic's count rises exactly then |
| BlockTable.RecordedKeeps | src/sharedmem/SharedMemoryBlock.cpp:47-49 | the same for a recorded size that fits the block |
| BlockTable.DroppedKeeps | src/sharedmem/SharedMemoryBlock.cpp:126-130 | the same for a slot given up with its block |
| BlockTable.SharedMemoryBlock.ConnectBlock | src/sharedmem/SharedMemoryBlock.cpp:7-13 | for a slot whose block is as long as its size, the source's assertion holds and the handle is the live one |
| BlockTable.SharedMemoryBlock.FindHandle | src/sharedmem/SharedMemoryBlock.cpp:15-31 | finds the slot of a topic exactly when there is one, and connects to it, whether or not the rest of the table is in order |
| BlockTable.SharedMemoryBlock.AllocateBlock | src/sharedmem/SharedMemoryBlock.cpp:33-66 | fails exactly when 100 other topics have blocks and then changes nothing; otherwise the topic's own slot or the first free one gets a block at least that long, zeroed when built anew, and no other topic changes; throws exactly when a block has to be built without memory, and then leaves the topic a slot and no block |
| BlockTable.SharedMemoryBlock.TakeBack | src/sharedmem/SharedMemoryBlock.cpp:38-52 | the topic's slot keeps its block if long enough, gets a new one otherwise, or loses it when there is no memory |
| BlockTable.SharedMemoryBlock.TakeFree | src/sharedmem/SharedMemoryBlock.cpp:54-62 | a free slot is entered before its block is built, so that without memory it stays active, sized and blockless |
| BlockTable.SharedMemoryBlock.ReallocateBlock | src/sharedmem/SharedMemoryBlock.cpp:91-136 | for a handle of any slot: an invalid handle changes nothing; otherwise the slot ends sized, the block built anew exactly when too short, the handle refreshed exactly when the counts differ, or slot and block are given up when there is no memory; a slot not in use gets a nameless block; no other topic changes |
| BlockTable.ReallocatedHandle | src/sharedmem/SharedMemoryBlock.cpp:91-136 | a handle kept since the slot was taken survives unless memory is lacking, and is then live with the slot sized as asked |
| BlockTable.ReallocatedIsLive | src/sharedmem/SharedMemoryBlock.cpp:101-112 | any handle at all ends on the live block exactly if comparing the counts told right about it or the block was built anew |
| BlockTable.ResetLosesHandles | src/sharedmem/SharedMemoryBlockDescriptor.cpp:15-36 | over any run without another reset after the slot was taken again, an unused handle from before is told apart in every table of the run exactly if its count is 0 or above the slot's last count |
| BlockTable.EveryCountIsReached | src/sharedmem/SharedMemoryBlockDescriptor.cpp:15-23 | over any run without a reset a slot's count takes every value between its first and its last |
| BlockTable.SharedMemoryBlock.ResetBlock | src/sharedmem/SharedMemoryBlock.cpp:68-79 | whatever handle with an index below 100 it is given, the slot of that index and its block are gone, whoever has them now, and nothing else changes; without a pointer nothing changes |
| BlockTable.SharedMemoryBlock.ResetAllBlocks | src/sharedmem/SharedMemoryBlock.cpp:81-89 | no slot is active and no block is left |
| BlockTable.SharedMemoryBlock.Serialize | include/message_transport/sharedmem/SharedMemoryBlock.h:94-120 | the live block starts with the message exactly if it fits the recorded size, and with its timestamp alone on an overrun; every other byte stays; on a slot not in use it overruns and writes nothing |
| BlockTable.SharedMemoryBlock.Deserialize | include/message_transport/sharedmem/SharedMemoryBlock.h:125-138 | reads the message that the recorded number of bytes of the live block spell, or its timestamp alone when no buffer can be had, or overruns exactly when they are fewer than 8, as on a slot not in use |
| Publishing.SharedmemPublisher.Initialise | src/sharedmem/sharedmem_publisher.cpp:34-74 | the topic is connected exactly if the segment and its manager are found, 100 others are not in the way, and memory for a block is there when one has to be made; without it the topic is left with a slot and no block |
| Publishing.SharedmemPublisher.PublishMsg | include/message_transport/sharedmem/sharedmem_publisher.h:26-38 | a message below 2^32 bytes fills its stream exactly and is what the slot carries, a longer one overruns; the topic is given up, slot and block, exactly when the length exceeds the block and there is no memory; nothing else changes |
| Publishing.SharedmemPublisher.Publish | include/message_transport/sharedmem/sharedmem_publisher.h:80-92 | the first publish connects, or fails to for want of the segment, the manager, a slot or memory, and in the last case leaves the topic a slot without a block; a connected publisher keeps its connection exactly if the message fits the block or there is memory, and the slot then carries the message exactly if it is below 2^32 bytes; only the topic's slot and block differ |
| Publishing.SharedmemSubscriber.StartReceiving | include/message_transport/sharedmem/sharedmem_subscriber.h:64-97 | a subscriber not connected yet connects exactly when the segment and its manager are found and the topic has a block |
| Publishing.SharedmemSubscriber.Receive | include/message_transport/sharedmem/sharedmem_subscriber.h:51-62 | a receive returns what the slot's bytes spell, however old the handle, the timestamp alone without a buffer, and overruns exactly below 8 bytes |
| Publishing.CarriedIsRead | include/message_transport/serialization/message_types.h:93-113 | the recorded size alone is enough to get a RawMessage back out of a longer block |
| Publishing.ConnectBoth | src/sharedmem/SharedMemoryBlock.cpp:15-66 | a lookup after an allocation yields the same handle, and both fail exactly when the table is full of other topics |
| Publishing.PublishAndReceive | tests/simple_producer.cpp:95-101 | any sequence of messages of any lengths below 2^32 bytes, each read after its publish with the same old handle, arrives unchanged |
| RawMessages.ReadBack | include/message_transport/serialization/message_types.h:93-113 | a written message is read back with everything behind it as payload, so unchanged exactly when nothing follows |
| RawMessages.WrittenBack | include/message_transport/serialization/message_types.h:93-113 | writing what was read from any stream of at least 8 bytes gives the stream back |
| RawMessages.RawMessage.Allocate | include/message_transport/serialization/message_types.h:34-53 | succeeds exactly if the size is the one held, zero or available, and leaves an empty message otherwise |
| RawMessages.RawMessage.SerializedLength | include/message_transport/serialization/message_types.h:115-118 | the number of bytes written, modulo 2^32 |
| RawMessages.RawMessage.Write | include/message_transport/serialization/message_types.h:93-101 | writes the timestamp and payload exactly if they fit the stream, and the timestamp alone if there is room for no more; no other byte changes |
| RawMessages.RawMessage.Read | include/message_transport/serialization/message_types.h:103-113 | overruns exactly below 8 bytes; otherwise takes the whole stream, or only the timestamp when no buffer can be had |
| RawMessages.ReadFrom | include/message_transport/sharedmem/SharedMemoryBlock.h:136-137 | a message is read from the recorded number of bytes of a block, or its timestamp alone when no buffer can be had, overrunning exactly below 8 bytes |
| Serialization.FastWriteExactly | include/message_transport/serialization/serialization.h:243-277 | for every type and value the memcpy serializers write the bytes of the element loops exactly when no scalar vector has 2^32 bytes or more, and as many modulo 2^32 always |
| Serialization.ImageIsElementwise | include/message_transport/serialization/serialization.h:405-429 | the storage of a vector of scalars is the concatenation of its elements' bytes |
| SerializationLaws.FastReadExactly | include/message_transport/serialization/serialization.h:260-271 | the one-memcpy reader agrees with the loop exactly when its byte count does not wrap or the wrapped count is not available |
| SerializationLaws.FastReadRefines | include/message_transport/serialization/serialization.h:214-271 | for every type, what the loops accept the memcpy readers accept with the same value and rest |
| ReadingLaws.FastReadExactlyAll | include/message_transport/serialization/serialization.h:214-289 | for every type and stream what the memcpy readers accept is a value of the type, and they agree with the loops exactly unless that value has a vector of scalars of 2^32 bytes or more, which the loops refuse |
| SerializationLaws.RoundTrip | include/message_transport/serialization/serialization.h:95-467 | for every type and value, reading what was written returns the value and consumes exactly that, on both paths |
| SerializationLaws.RoundTripFields | include/message_transport/serialization/serialization.h:551-606 | a sequence of writes followed by reads in the same order is the identity |
| SerializationLaws.ShortValuesFit | include/message_transport/serialization/serialization.h:243-277 | a value of less than 2^32 bytes is written alike on both paths |
| SerializationLaws.FrontTimesCount | include/message_transport/serialization/serialization.h:315-324 | for fixed-size elements the front's length times the count is the length of all |
| SerializationLaws.SerializationLength | include/message_transport/serialization/serialization.h:182-494 | for every type and value the computed length is the true length modulo 2^32 |
| SerializationLaws.SumOfLengths | include/message_transport/serialization/serialization.h:227-237 | the element loop adds up the true length modulo 2^32 |
| SerializationLaws.LengthStream | include/message_transport/serialization/serialization.h:614-646 | a length stream over several items holds their true total modulo 2^32 |
| Streams.Stream.Advance | include/message_transport/serialization/serialization.h:522-532 | the cursor moves in any case, and the step is refused exactly if it ends past the buffer |
| Streams.Stream.Put | include/message_transport/serialization/serialization.h:158-167 | bytes are stored exactly if they fit, and no other byte changes |
| Streams.Write | include/message_transport/serialization/serialization.h:582-606 | writing a value to a stream overruns exactly if its bytes exceed what is left; they lie before the cursor otherwise, and on an overrun a first part of them has been written; no other byte changes |
| Streams.Read | include/message_transport/serialization/serialization.h:551-577 | reading returns what the bytes left decode to and stops in front of those not consumed, or overruns exactly when they do not decode |
| Streams.WriteToFit | include/message_transport/serialization/serialization.h:89-93 | a buffer of the computed length is filled exactly, with an overrun exactly for 2^32 bytes or more |
| Streams.WriteThenRead | include/message_transport/serialization/serialization.h:71-84 | a value of less than 2^32 bytes written to a buffer and read from it comes back exactly if the buffer has room |
| Numbers.FromToBytes | include/message_transport/serialization/serialization.h:95-112 | a number survives its fixed-width byte form |
| Numbers.ToFromBytes | include/message_transport/serialization/serialization.h:95-112 | bytes survive being read as a number |
| Layout.PlaceValue | include/message_transport/serialization/serialization.h:95-112 | each byte of a number is worth 256 times as much as the one before it |
| Layout.NumberLayout | include/message_transport/serialization/serialization.h:95-112 | a number of 1, 2, 4 or 8 bytes is written least significant byte first |
| Layout.BoolIsOneOrZero | include/message_transport/serialization/serialization.h:131-135 | a bool is written as the one-byte number 1 or 0 |
| Layout.BoolIsNonzero | include/message_transport/serialization/serialization.h:138-143 | a bool read is whether the one-byte number in its place is not 0 |
| Layout.StringIsCounted | include/message_transport/serialization/serialization.h:159-167 | a string is its length as a 32-bit number and then its bytes |
| Layout.VectorIsCountedArray | include/message_transport/serialization/serialization.h:204-212 | a vector is its length as a 32-bit number and then the array of its elements |
| Layout.ArraysConcatenate | include/message_transport/serialization/serialization.h:370-377 | the elements of an array are written one after the other |
| Layout.MessagesConcatenate | include/message_transport/serialization/serialization.h:551-606 | the fields of a message are written one after the other |
| Layout.RawLayout | include/message_transport/serialization/message_types.h:93-101 | a RawMessage is its timestamp as a 64-bit number and then its payload |
| Layout.ReadingInvertsWriting | include/message_transport/serialization/serialization.h:95-467 | for every type without a bool inside, a stream is read as a value and a rest if and only if it is what the value is written as, and the rest |
| TimestampSync.TimestampSync.constructor | include/message_transport/message_transport_util.h:64-69 | a filter whose gain times the native frequency is the local one, in working order, without events and with a budget of -100 |
| TimestampSync.TimestampSync.SetFrequency | src/message_transport_util.cpp:57-72 | the gain times the native frequency is the local one; the noises are a thousandth and three hundredths of a local second and a ten-thousandth of the gain, squared, the initial spread a local second and ten times the gain, and the threshold a thousandth of a second; events, budget and estimate are kept |
| TimestampSync.TunedInUnits | src/message_transport_util.cpp:57-72 | the same of the specification: a tuned filter in units of the two clocks |
| TimestampSync.TimestampSync.ConvertNativeToLocal | src/message_transport_util.cpp:75-129 | the in-place code computes the specified step; every sample is counted; the first is returned as it is; for a later one the prediction is the last estimate and the whole units of the native time passed times the gain, and a sample three or more root-mean-square deviations off, once the budget is not negative, costs two and leaves estimate, gain and threshold, while any other is taken in |
| TimestampSync.StepCounts | src/message_transport_util.cpp:124-125 | each sample is counted in 32 bits and the next step is measured from it |
| TimestampSync.StepPredicts | src/message_transport_util.cpp:78-86 | the prediction is the last estimate, or the first sample, and the whole units of the native time passed |
| TimestampSync.StepGates | src/message_transport_util.cpp:92-96 | a sample is taken exactly if the budget is negative or its squared deviation is below nine times the average |
| TimestampSync.StepAverages | src/message_transport_util.cpp:109-110 | from the 52nd sample on an accepted one moves the average a hundredth of the way to its squared deviation, and before that not at all |
| TimestampSync.StepSpreads | src/message_transport_util.cpp:87-89 | the three entries of the spread after a native time step |
| TimestampSync.StepCorrects | src/message_transport_util.cpp:99-107 | an accepted sample moves gain and estimate by their shares of the deviation and shrinks the spread by the same shares |
| TimestampSync.WholeUnitsAre | src/message_transport_util.cpp:86 | a product cast to a whole number is that product without its fraction, towards zero |
| TimestampSync.PredictionIsMatrixForm | src/message_transport_util.cpp:85-89 | the time update is x = F x (with the local time truncated) and P = F P F^T + Q |
| TimestampSync.CorrectionIsMatrixForm | src/message_transport_util.cpp:96-115 | an accepted sample is taken in as x = x + K d (truncated) and P = (I - K H) P, a rejected one not at all |
| TimestampSync.ConvertKeepsHealth | src/message_transport_util.cpp:75-129 | every step keeps the covariance positive definite and the outlier threshold positive |
| TimestampSync.TunedIsHealthy | src/message_transport_util.cpp:57-72 | tuning with nonzero frequencies gives a filter in working order |
| Kalman.TimeUpdateIsMatrixForm | src/message_transport_util.cpp:87-89 | the three scalar assignments equal F P F^T + Q entry by entry |
| Kalman.MeasurementUpdateIsMatrixForm | src/message_transport_util.cpp:99-107 | the scalar measurement update equals (I - K H) P entry by entry |
| Kalman.TimeUpdateKeepsPositive | src/message_transport_util.cpp:87-89 | a time update keeps the covariance positive definite and raises its determinant |
| Kalman.MeasurementUpdateKeepsPositive | src/message_transport_util.cpp:99-107 | a measurement multiplies the determinant by exactly R / (R + p1) and leaves p1 below R |
| Kalman.GainIsOptimal | src/message_transport_util.cpp:99-107 | the Joseph covariance under any other gain exceeds the filter's by (R + p1)(K' - K)(K' - K)^T |
| Kalman.OuterSquareIsSemidefinite | src/message_transport_util.cpp:99-107 | that excess is positive semidefinite, so no gain does better |
| FilterRuns.CovarianceStaysPositive | src/message_transport_util.cpp:84-107 | over every sequence of samples from a tuned filter p1 > 0, p3 > 0, p1 p3 - p2^2 > 0 and the threshold is positive |
| FilterRuns.DeterminantOfAStep | src/message_transport_util.cpp:84-107 | what one step does to the determinant, for an accepted and for a rejected sample |
| FilterRuns.BudgetStaysInRange | src/message_transport_util.cpp:96-115 | the budget stays between -100 and 40 |
| FilterRuns.WarmUpAccepts | include/message_transport/message_transport_util.h:64-69 | the first 100 samples are accepted, whatever they are |
| FilterRuns.OutlierBudgetBound | src/message_transport_util.cpp:96-115 | over any window of any run twice the rejections are at most the acceptances plus 42, so at most 21 samples in a row are rejected |
| FilterRuns.ThresholdGrowth | src/message_transport_util.cpp:92-112 | a sample that passes the threshold test grows the average squared deviation by a factor below 1.08 |
| TimestampSync.EstimateLiesBetween | src/message_transport_util.cpp:96-129 | the returned timestamp lies between prediction and sample after truncation, and is the prediction for a rejected sample |
| FilterRuns.GainFollowsDeviation | src/message_transport_util.cpp:85-107 | with native times that never decrease, p2 >= 0 and the gain never moves against the deviation, in every run |
| FilterRuns.ExactClockIsReproduced | src/message_transport_util.cpp:75-129 | an affine clock with whole increments and an exact initial gain is reproduced exactly by every output |
| FilterClock.TunedClockIsReproduced | src/message_transport_util.cpp:57-129 | a filter tuned to two frequencies returns every local time of samples on which the two clocks are in step, from its first sample or, tuned anew, from where it stands |
| FilterClock.EventsAreCounted | src/message_transport_util.cpp:125 | after any samples the count has risen by their number, modulo 2^32 |
| FilterClock.NextOutput | src/message_transport_util.cpp:78-129 | after any samples fewer than 2^32 the next timestamp is the last one and the whole units of the native time passed for an outlier, which costs the budget two, and lies between that and the sample otherwise |
| FilterClock.ThresholdSettles | src/message_transport_util.cpp:109-110 | the threshold stays as tuned for the first 51 samples |
| FilterClock.TunedSpreads | src/message_transport_util.cpp:59-107 | in every run of a tuned filter an accepted sample leaves the local time known to three hundredths of a local second, and a rejected one at no native distance adds a thousandth of a second and a ten-thousandth of the gain, squared |

## Left out

- ProtocolStreams.DeadlockFreedom: asks for one publisher or one length on every topic; `ProtocolExactness.DeadlocksExactly` has the exact condition when lengths are not restricted.
- ProtocolDelivery.InOrderUntornDelivery: needs one publisher and one subscriber for what is said of the bytes; `ProtocolOrder.InOrderDelivery` has the order for any topic, and `ProtocolMixing.UnsentExactly` shows what happens to the bytes on others.
- ProtocolExclusion.ReaderWriterExclusion: needs one publisher and one subscriber on the topic; `ProtocolExactness.ExclusionExactly` shows that it holds of no other topic that has both.
- ProtocolLengths.EqualLengthDelivery: needs messages of one length; `ProtocolExactness.TearsExactly` and `ProtocolMixing.UnsentExactly` show that it fails for any others, and on any topic that is not one-to-one.
- BlockTable.SharedMemoryBlock.Serialize: on a slot in use, a handle from before a reset whose count misleads is excluded; the source then writes to an address whose block is gone.
- BlockTable.SharedMemoryBlock.Deserialize: the same, for reading.
- BlockTable.SharedMemoryBlock.AllocateBlock: once it has thrown, the table has a slot without a block; of the table's operations only `FindHandle`, for the other topics, is then covered. The same holds once a slot not in use has been given a nameless block.
- Streams.Write: strings of 2^32 bytes or more, whose length prefix would be truncated, are outside the typed values.
- TimestampSync.TimestampSync.SetFrequency: zero frequencies, which give infinities in floating point, are excluded.
- In the step model: resets, a publisher joining or allocating a slot during a run, failure to construct a block, spurious wake-ups, the death of a process. Destroying, rebuilding and recording a block is one step, taken under both mutexes; `ProtocolAccess.BlockStaysUnderReader` shows that no reader, who needs neither, can be at work then.
- In the step model a slot starts as `initialise` leaves one, with a recorded size of at least 8 bytes, and messages have 8 bytes or more and fewer than 2^32; longer ones are covered by `Publishing.SharedmemPublisher.PublishMsg`.
- In the step model a store through a dangling pointer changes nothing and a load through one gives zero; `ProtocolAccess.StaleHandlesAreDetected` shows that neither happens, nor an access behind the block's end.
- Time: the one-second limit of the wait for data is a nondeterministic expiry; `receiveThread` stopping is not modelled.
- Block names are abstract strings; 256-byte name buffers and C strings are not modelled. Names are not empty.
- Boost's allocator, mutexes and conditions themselves: the segment is a map from name to byte array, and the synchronisation objects follow their usual rules.
- Byte order is fixed to least significant first; alignment, pointer wrap-around and the old-style default `Serializer` are not modelled.
- Vectors or arrays directly inside one another, `std::vector<bool>`, and fixed arrays of scalars of 2^32 bytes or more.
- Floating-point rounding and the 64-bit wrap of timestamps; native and local clock values are arbitrary reals and integers.
- `now()`, the other clock helpers and the string forms of timestamps; logging, tracing, plugin lookup, facades, property trees, the release pool and the timer.

# VoidBridge, modelled and proved in Dafny

VoidBridge keeps the clipboards of a group of devices in step and sends files between them,
over direct encrypted links and through a relay server. This project models the parts of it
where correctness is hard to see from any one function, and proves what they promise.
`dafny verify dfyconfig.toml` checks everything.

## How the model is laid out

**The sync engine** (`Sync`, `Relay`, `Flood`, `Convergence`, `FloodTheorems`, `FloodNewest`,
`FloodOrder`, `FloodStale`, `FloodLimits`, `Engine`, `AndroidEngine`, `Echo`). `Sync` gives each
lock section of a device as a function on its state, `Relay` the hub's. `Engine.Node` is the Go
object and `AndroidEngine.Node` the Kotlin one: their methods update fields in place and are tied
to the same functions, so what is proved about those functions holds for networks that mix both.
`Flood` is the whole network as a state machine: any number of devices and hubs, connections that
come and go, every send a copy in flight that may arrive in any order or never, every `Handle`
split into its two sections with anything in between, every `LocalCopy` split likewise.
`Convergence` holds the invariant, `FloodTheorems` the claims on agreement, `FloodNewest` that it
is the last copy made that all agree on, `FloodOrder` those on each party's own order, which hold
in every run, `FloodStale` what storing a stale clip does, and `FloodLimits` two concrete runs
that show where agreement stops. `Echo` looks at one device and its clipboard, one whole call at
a time.

A run is *calm* when every clip that `LocalCopy` stores in its second section is still newer than
the current one. Nothing in the code forces this, because the section stores unconditionally.
`AgreesAgainExactlyIfCalm` says that joined parties agree again after such a store exactly when
it was calm, `CalmIsExact` that calmness is exactly what keeps a device's own clips moving
forward, `UndisturbedCopyIsCalm` that a store is calm whenever no other clip was adopted between
the two sections, and `UncalmRunDiverges` is a run from the start without it. A hub needs no such
condition.

A paused device throws away what arrives. `QuietNeighboursDiffer` says that this is all that can
keep linked parties apart once calm copies have settled, and that it does so exactly until the
device comes to hold the dropped clip or a newer one.

**File transfer** (`Transfer`, `TransferLife`, `Delivery`, `Replies`, `Orderly`, `FileNode`,
`Folder`, `Naming`, `NameLaws`, `HubState`, `HubFiles`, `HubDevices`). `Transfer` gives the
receiving device as functions, `FileNode.Files` as the object that runs them, `FileNode.SendFile`
and `SendFileKotlin` the two sender loops. `Folder.Directory` is the receiving folder with its
temporary files, `HubState.Server` the hub's maps. `Delivery` puts senders, receivers and a
network together that loses, repeats, reorders, reroutes and rewrites messages; `Orderly` is the
network on which nothing goes wrong, and `Replies` what a sender is told. `NameLaws` says what
becomes of names, `HubDevices` which connections the hub keeps.

**Links** (`Wire`, `Channel`, `Endian`, `Framing`). Messages, their order and their associated
data; the counter-nonce cipher, handshake and locked sender under an adversary on the wire; byte
encoding and frames on a stream that may break anywhere, with the Go and the Kotlin reader.

**Bitmaps** (`Bits`, `Dib`, `DibLaws`, `DibFiles`). The device-independent bitmap decoder and
encoder, byte for byte, with masks, palettes, packed pixels, alpha repair and compositing.

**The server's bookkeeping** (`Codes`, `Store`, `Accounts`, `Sessions`, `Ledger`, `Limiter`,
`LimiterRaces`) and the **clip history** (`History`). State machines over whole runs of requests.

### Idealisations

- The authenticated cipher opens exactly what was sealed under the same key, nonce or associated
  data; SHA-256, HMAC and HKDF are injective; random ids, tokens and nonces are new.
- The header coders and the file-header coder are any functions; those of a program that is to read
  its own messages lose nothing.
- A Go string is a sequence of characters standing for bytes; names and codes that people type
  are sequences of Unicode scalars. 64-bit and 32-bit arithmetic wraps where the code's does.
- Time, the outcome of each disk write and clipboard call, and what a random source yields are
  inputs of the step that uses them.

### Where the code and its comments differ

- `SafeName` is said to rule out collisions with Windows device names. The guard looks at the
  name before it is cut to 200 bytes, and the cut can leave `CON.xxx…`. `DeviceNamesAvoided` gives
  the exact condition, `LongConBecomesDevice` a name that meets it.
- `SetDisabled` is said to sign out the account's devices. It keeps their sessions, and enabling
  the account makes every token valid again (`DisablingKeepsTokens`).
- `channel` scales a masked field to 8 bits in 32-bit arithmetic. That is exact for every pixel
  exactly when the mask, shifted down, is at most 16843009 (`ChannelAlwaysExact`).
- The limiter is said to block a key after ten failures (docs/PROTOCOL.md:114). Requests
  that overlap can go beyond that; `TenHoldsExactly` and `OverlapIsBounded` say when and how far.
- The hub is said to tell a sender when its receiver is lost. `NoSenderLeftWaiting` gives the exact
  condition: an ack or a start with the id of another transfer ends the watch over it.
- `Register` may report an error although the account exists: exactly when nothing is wrong with the
  registration and only the file cannot be written (`FailedRegistration`).
- An incoming file is meant to end once, saved or removed. A start that repeats the id of a transfer
  under way replaces its table entry and leaves its writer and temporary file behind for good;
  `LifecycleHoldsExactly` gives the exact condition, `AnyStartTwiceLeaks` the runs.

## Model

| member | source | states |
|---|---|---|
| FloodTheorems.AnyTopologyConverges | internal/node/node.go:132-289 | For every calm run of any network and every schedule of deliveries after it, only boundedly many deliveries happen; when none is left, all parties joined by a chain of links hold the same clip, at least as new as every clip any of them ever took; and two linked parties differ if and only if one of them, while paused, dropped from that link a clip it has not come to hold since |
| FloodTheorems.FloodingStops | internal/node/node.go:199-208 | Every delivery strictly lowers a weight that counts who could still take which clip, so flooding any set of copies ends |
| FloodTheorems.QuietAgrees | internal/node/node.go:4-10 | In any state that satisfies the invariant and has nothing on its way, the parties along a chain of links agree on the newest clip of all their histories, wherever neither end of a link still lacks a clip it dropped |
| FloodTheorems.QuietNeighboursDiffer | internal/node/node.go:171-175 | In such a state two linked parties differ if and only if one of them, while paused, dropped from that link a clip it does not hold: catching up after a pause fails exactly there |
| FloodTheorems.QuietWithinReach | internal/node/node.go:163-223 | From every reachable state deliveries alone lead to a quiet one |
| FloodNewest.LastCopyWins | internal/node/node.go:252-289 | In any network: after any calm run, a copy made at a time later than every clip so far was stamped, then any calm run without further copies in which it is stored, until nothing is left to deliver; then every party on a chain of links from that device holds that very clip, stamped with the time of the copy and opening to what was copied |
| FloodNewest.LatestBeatsAll | internal/node/node.go:262-272 | A copy made after every clip anywhere, by the clock, is stamped with its own time and beats them all |
| FloodOrder.TakenAtMostOnce | internal/node/node.go:171-208 | In every run whatever a hub takes each clip at most once, each newer than the last; so does a device that stores its own copies calmly, whatever others do and whatever its seen window has forgotten |
| FloodOrder.StepMoves | internal/node/node.go:132-289 | Every step of any party keeps the clips of one party ascending, unless that party itself stores a stale copy |
| FloodOrder.CalmIsExact | internal/node/node.go:274-281 | Storing a stamped clip keeps the party's clips ascending if and only if it is still newer than the current one |
| FloodTheorems.UndisturbedCopyIsCalm | internal/node/node.go:262-281 | If the clip it was stamped against is still current when it is stored, a copy is stored calmly |
| FloodStale.AgreesAgainExactlyIfCalm | internal/node/node.go:252-289 | Of two awake joined parties in a network with nothing left to deliver, one stores a copy and everything that follows is delivered in any order: they agree again if and only if the copy was still newer than the current clip |
| FloodStale.StaleStoreSplits | internal/node/node.go:252-289 | After a stale copy no schedule of deliveries brings them together |
| FloodLimits.UncalmRunDiverges | internal/node/node.go:252-281 | A run of two devices from the start in which this happens, ending quiet, joined and with different clips |
| FloodLimits.PausedRunDiverges | internal/node/node.go:171-175 | A run in which a clip dropped while paused is not caught up over the same link |
| Convergence.StepKeeps | internal/node/node.go:132-289 | Every calm step keeps the invariant: along each registered working link the sender's clip has reached, is being handled at or is on its way to the far end, or is covered by a clip the far end dropped while paused; nothing on its way is newer than its sender's clip, and whatever was dropped is covered by the clip of the other end |
| Convergence.RunKeeps | internal/node/node.go:132-289 | So does every calm run |
| Convergence.HubMayAdopt | internal/server/server.go:711-731 | The hub's step refuses only clips it already covers and passes the others to every connection but the one they came from |
| Relay.TheNewestStays | internal/server/server.go:711-724 | Whatever clips with ids of their own reach a hub, in whatever order and however often, it ends with one that is at least as new as all of them and as the one it had, and that is one of these |
| Relay.SameIdIsRefused | internal/server/server.go:711-724 | What carries the id of the clip just passed on is refused, whatever time it claims |
| Sync.CommitNeverGoesBack | internal/node/node.go:194-205 | Whatever happened between the two sections of Handle, the clip never goes backwards and ends at least as new as the one handled |
| Sync.CopyIsStampedNow | internal/node/node.go:247-272 | When LocalCopy sends a clip, and that it is stamped with the time of the copy unless the current clip claims that time or a later one, then with the next moment after it; it names this device |
| Sync.OriginateIsGenuine | internal/node/node.go:262-272 | What LocalCopy stamps opens, for every member of the group, to the copied content |
| Sync.OnlyGroupClipsAreAdopted | internal/node/node.go:171-218 | A clip that changes anything was sealed under the group key with the header it came with, is of a known kind and within its size limit, is new and newer, and goes to exactly the other links |
| Sync.GroupClipsAreAdopted | internal/node/node.go:171-218 | Every such clip is adopted, written unless its content was just seen or the write fails, and the write is known for the device's own |
| Sync.RememberKeeps | internal/node/node.go:340-350 | The bounded window remembers the new id and nothing that was not remembered before |
| Sync.HandledOnce | internal/node/node.go:175-181 | A clip handled or made here is not decrypted again, however it comes back, until 4096 other ids have come |
| Sync.PollSettles | internal/node/node.go:225-243 | After a poll that could read the counter another does nothing until the clipboard changes |
| Engine.Node.MarkSeen | internal/node/node.go:340-350 | Set and queue of seen ids stay in agreement and bounded |
| Engine.Node.LinksExcept | internal/node/node.go:330-338 | Exactly the other links, each once |
| Engine.Node.CheckClip | internal/node/node.go:171-182 | The first lock section of Handle is the step `Check` |
| Engine.Node.CommitClip | internal/node/node.go:194-205 | The second lock section of Handle is the step `Commit` |
| Engine.Node.Handle | internal/node/node.go:163-223 | The whole call updates device and clipboard and forwards as `HandleClip` says |
| Engine.Node.StampClip | internal/node/node.go:247-272 | The first lock section of LocalCopy and the sealing are the step `Originate` |
| Engine.Node.PublishClip | internal/node/node.go:274-284 | The second lock section of LocalCopy is the step `Publish` |
| Engine.Node.CopyLocal | internal/node/node.go:247-289 | The whole call is `LocalCopy`: device, clip and targets |
| Engine.Node.PollBoard | internal/node/node.go:225-243 | The whole call is `Poll`, with failing counter and failing reads |
| Engine.Memory.Write | internal/clipboard/clipboard.go:59-67 | The contents are replaced and the counter moves on |
| Engine.Node.Join | internal/node/node.go:132-142 | A new link is recorded and is to be sent the current clip |
| Engine.Node.Leave | internal/node/node.go:144-151 | A link is forgotten and nothing else changes |
| AndroidEngine.Node.CheckClip | android/core/src/main/kotlin/com/theformofvoid/voidbridge/core/Node.kt:121-126 | The Kotlin section takes the very same step |
| AndroidEngine.Node.CommitClip | android/core/src/main/kotlin/com/theformofvoid/voidbridge/core/Node.kt:140-148 | The Kotlin section takes the very same step |
| AndroidEngine.Node.StampClip | android/core/src/main/kotlin/com/theformofvoid/voidbridge/core/Node.kt:155-167 | The Kotlin section takes the very same step |
| AndroidEngine.Node.PublishClip | android/core/src/main/kotlin/com/theformofvoid/voidbridge/core/Node.kt:169-175 | The Kotlin section takes the very same step |
| AndroidEngine.Node.Join | android/core/src/main/kotlin/com/theformofvoid/voidbridge/core/Node.kt:91-98 | The Kotlin step is the Go step, links kept in order |
| AndroidEngine.Node.Leave | android/core/src/main/kotlin/com/theformofvoid/voidbridge/core/Node.kt:100-106 | The Kotlin step is the Go step, links kept in order |
| AndroidEngine.Node.MarkSeen | android/core/src/main/kotlin/com/theformofvoid/voidbridge/core/Node.kt:113-115 | One insertion-ordered set behaves like the set and queue of the Go engine |
| Wire.ClipAadBindsHeader | internal/protocol/protocol.go:231-233 | A header under which a sealed clip opens is the one it was sealed with, in id, origin, time, kind and media type |
| Wire.FileAadBindsHeader | internal/protocol/protocol.go:290-302 | The same for file messages: type, id, origin, target and sequence number |
| Wire.ClipHeaderIsForgeable | internal/protocol/protocol.go:231-233 | The associated data of a clip fits another header if and only if its id, origin, kind or media type contains the separator |
| Wire.FileHeaderIsForgeable | internal/protocol/protocol.go:290-292 | The associated data of a file message fits another header of its type if and only if its id, origin or target contains the separator |
| Wire.KindsNeverMix | internal/protocol/protocol.go:231-302 | No clip can pass for a file message or the other way round, whatever its fields |
| Echo.NoMoreClipsThanCopies | internal/node/node.go:199-260 | In every run of harmless steps a device originates no more clips than its user made copies; harm is done only by an adopted clip that could not be written over other syncable content, unless the device keeps that content back, and on a device that is only polled only if its counter was not up to date |
| Echo.IdleDeviceOriginatesNothing | internal/node/node.go:225-260 | With the user idle no run of harmless steps makes a device originate a clip, so two devices cannot ping-pong |
| Echo.SilentExactly | internal/node/node.go:199-260 | While the user is idle, there is no point of a run at which some event could make the device send a clip nobody copied, if and only if all its steps are harmless |
| Echo.RecognitionLost | internal/node/node.go:199-223 | A step makes a device stop recognising its own clipboard if and only if it adopts a clip, the write fails and the clipboard goes on holding other content that can be synced |
| Echo.StepExact | internal/node/node.go:199-260 | From a guarded state a step leaves the device guarded against echoes if and only if it is harmless in this sense, the counter of a polled device included |
| Echo.NoticeEchoes | internal/node/node.go:247-260 | A report of the clipboard by the platform comes out as a new clip exactly when the device does not recognise what is there and is not set to hold it back |
| Echo.PollEchoes | internal/node/node.go:225-260 | For a poll the counter must also have moved and been readable, and the read have worked |
| Echo.FailedWriteEchoes | internal/node/node.go:199-260 | A run in which one failed write is enough for a clip nobody copied |
| Delivery.SuccessMeansDelivered | internal/node/files.go:94-282 | In every run of any senders and receivers over a network that loses, repeats, reorders, reroutes and injects, a sender that reports success has had exactly its bytes saved by the target |
| Replies.EveryEndIsAnswered | internal/node/files.go:201-282 | Exactly the starts that begin no writer and the messages that take their transfer out of the table are answered, with one ack to the sender, empty if and only if a file was saved |
| Replies.NobodyIsDroppedInSilence | internal/node/files.go:201-282 | In every run over the network such an ack is on the wire from then on, addressed to the device that sends the file |
| Replies.WhyStartsFail | internal/node/files.go:218-235 | Exactly when a start is refused, and with what reason |
| Replies.WhyChunksFail | internal/node/files.go:237-259 | Exactly when a chunk is taken, what it adds, and why it ends its transfer otherwise |
| Replies.WhyEndsFail | internal/node/files.go:261-280 | Exactly when an end saves the file, and the reason otherwise |
| Replies.FirstAckCounts | internal/node/files.go:183-194 | Of any acks for a transfer the sender gets the first; others change nothing |
| Orderly.OrderlyTransferSucceeds | internal/node/files.go:94-302 | For every file, from length 0 up: messages that arrive in order at a device whose disk works, with the device looking for silent transfers at any times up to a minute after the last message, get exactly one reply, the success ack; the file is in the folder with its bytes, under its safe name if that was free and else under a numbered one |
| Orderly.SilenceEndsIt | internal/node/files.go:285-302 | A look ends a transfer if and only if nothing was heard of it for more than a minute; its temporary file is then gone and the user told |
| Delivery.ReceivedIsPrefix | internal/node/files.go:217-260 | At all times what a receiver has on disk for a transfer is the sender's first `next` chunks, never more than announced |
| Delivery.HandleKeeps | internal/node/files.go:178-282 | Whatever arrives, a device's table stays true to the senders, and it acknowledges success only for a file it has just saved whole |
| Delivery.OpenedIsScripted | internal/protocol/protocol.go:290-317 | A file message that opens is, header and content, a step of some sender's script |
| Transfer.ChunksJoin | internal/node/files.go:129-153 | Cutting into chunks loses nothing, for every length |
| Transfer.ChunkAt | internal/node/files.go:129-153 | How many chunks there are, and which bytes chunk k holds |
| FileNode.SendFile | internal/node/files.go:94-171 | The call succeeds if and only if nothing interferes, and what it sends is always a prefix of the script |
| FileNode.SendFileKotlin | android/core/src/main/kotlin/com/theformofvoid/voidbridge/core/Node.kt:208-249 | The Kotlin loop sends the same messages with the same outcome, however little each read gives, a read that throws included |
| FileNode.Files.HandleFile | internal/node/files.go:178-282 | The object's table, channels, folder and reports change as the function `Handle` says |
| FileNode.Files.HandleStart | internal/node/files.go:218-235 | A start is refused, rejected or opens a writer as `OnStart` says, with the reply that goes with it |
| FileNode.Files.HandleChunk | internal/node/files.go:237-259 | A chunk is ignored, ends the transfer or extends it as `OnChunk` says |
| FileNode.Files.HandleEnd | internal/node/files.go:261-280 | An end commits or aborts as `OnEnd` says, and says success only after a commit |
| FileNode.Files.ExpireFiles | internal/node/files.go:285-302 | All transfers that went quiet, and only those, are aborted and reported |
| TransferLife.EveryTransferEndsOnce | internal/node/files.go:201-302 | In every run from an idle device a writer ever begun has ended, was reported exactly once and its temporary file is gone, or is open, unreported and its temporary file on disk; an open one is in the table, once, if and only if no start displaced it; files that were there before are as they were |
| TransferLife.LifecycleHoldsExactly | internal/node/files.go:201-302 | After any run the transfers in the table are exactly the open writers, one each, if and only if no step of it was a start for this device that opens under the key, takes the id of a transfer under way, has a proper header and gets a temporary file |
| TransferLife.StepKeeps | internal/node/files.go:201-302 | Every message and every expiry keeps each transfer in the table with an open writer of its own and each ended writer reported once, and leaves exactly the writer stray that it displaces |
| TransferLife.StraysStay | internal/node/files.go:228-302 | After any run the stray writers are those there were and those it displaced: nothing ever closes one |
| TransferLife.FolderStaysTidy | internal/files/files.go:95-148 | In every run, repeated starts included, earlier files are untouched and every dotted file that was not there before belongs to a writer still open |
| TransferLife.RepeatedStartLeaks | internal/node/files.go:218-235 | A step breaks the agreement of table and open writers if and only if it is such a start |
| TransferLife.AnyStartTwiceLeaks | internal/node/files.go:218-235 | From any idle device, the start of any transfer delivered twice leaves the first writer open for ever, whatever follows |
| Folder.CommitReplacesNothing | internal/files/files.go:120-137 | A commit adds one file under a free name and leaves every other file as it was |
| Folder.EndsOnce | internal/files/files.go:110-148 | A writer ends once, its temporary file is gone, and nothing through it has an effect afterwards |
| Folder.WritesExactly | internal/files/files.go:110-118 | A write adds all its bytes, or if it fails those it still got out, and touches no other file |
| Folder.Directory.CommitFile | internal/files/files.go:120-137 | The folder changes as `Commit` says, also when closing or renaming fails |
| Folder.Directory.BeginFile | internal/files/files.go:95-108 | A fresh temporary file and an open writer, or nothing |
| Folder.Directory.WriteFile | internal/files/files.go:110-118 | Bytes are appended to the temporary file of an open writer only, a short write included |
| Folder.Directory.AbortFile | internal/files/files.go:139-148 | An open writer ends and its temporary file goes |
| Naming.SafeNameIsSafe | internal/files/files.go:19-50 | For every name: 1 to 200 bytes, no separator, control or reserved character, no leading dot |
| Naming.DeviceNamesAvoided | internal/files/files.go:36-48 | The result is a device name if and only if the cut exposes one |
| Naming.LongConBecomesDevice | internal/files/files.go:42-48 | A concrete name for which it does |
| NameLaws.TidyNamesAreKept | internal/files/files.go:19-50 | A name of fewer than 200 bytes with nothing to replace or trim stays as it is, unless the part before its last dot is reserved: then an underscore goes in front |
| NameLaws.LongNamesAreCut | internal/files/files.go:42-48 | A longer one is cut to 200 bytes and keeps its extension if that takes 20 bytes at most |
| NameLaws.OnlyTheLastPartCounts | internal/files/files.go:20-21 | Whatever comes before the last slash or backslash does not matter |
| NameLaws.BadCharactersBecomeUnderscores | internal/files/files.go:22-30 | A control or reserved character counts as an underscore |
| NameLaws.DressingComesOff | internal/files/files.go:31-32 | Spaces and then dots in front and any of both behind are taken off |
| NameLaws.NumbersGoBeforeTheExtension | internal/files/files.go:53-66 | A numbered alternative has its number in brackets before the last dot |
| Naming.UniquePath | internal/files/files.go:53-66 | The search ends in every folder with the first free alternative |
| Naming.UniqueNameIsFree | internal/files/files.go:53-66 | The name found is not taken |
| HubFiles.NoSenderLeftWaiting | internal/server/server.go:633-689 | In every run, each transfer passed on stays accounted for (answered by the receiving device, failed with a reason given to its sender, its sender gone, or watched with both ends connected) if and only if no start takes the id of another open transfer and no ack with the id of an open transfer comes from or goes to any but its two devices |
| HubFiles.StepExact | internal/server/server.go:658-675 | From a state where every sender is accounted for, a step keeps it so if and only if it is neither of these |
| HubFiles.WellBehavedClientsAreServed | internal/server/server.go:633-689 | Among clients that use new ids and ack only what was sent to them, to the device that sent it, no sender is ever left waiting |
| HubFiles.SendersCanBeStranded | internal/server/server.go:669-674 | Two runs in which a sender waits for ever: a repeated id, and a stray ack |
| HubDevices.ReconnectReplacesOnlyItself | internal/server/server.go:598-646 | When a device connects and the connections cancelled for it have left, the new one is its only one; connections of every other device and user, and the transfers between them, are all still there |
| HubDevices.OneConnectionPerDevice | internal/server/server.go:598-675 | In every run a device has at most one connection the hub has not cancelled, a connection is cancelled only because the same device of the same user came back, and every file message passed on goes to the device it names in the sender's own account |
| HubDevices.RoutedToAddressee | internal/server/server.go:658-668 | A message is passed on exactly if the sender's account has another connection of the device it names |
| HubState.Server.Route | internal/server/server.go:658-675 | A connection of the addressed device is chosen if there is one, and the transfer table changes as `Track` says |
| HubState.Server.Connect | internal/server/server.go:598-612 | The connection joins its account; the stale ones of its device and the current clip are returned |
| HubState.Server.Disconnect | internal/server/server.go:635-646 | The connection leaves with its transfers, and the orphaned ones are returned |
| HubState.Server.ReadClip | internal/server/server.go:711-724 | The hub's clip section is the step `Accept` |
| Channel.ChannelIsSafe | internal/protocol/protocol.go:401-438 | Under any dropping, replay, reordering, reflection or injection, what an end opens is a prefix of what the other sealed |
| Channel.NoncesRepeatOnlyAfterWrap | internal/protocol/protocol.go:416-428 | Two frames share a nonce exactly when they go the same way and lie a multiple of 2^64 apart |
| Channel.EndsAgree | internal/protocol/conn.go:67-76 | Dialer and listener get opposite directions, and the same key exactly when link keys and nonces agree |
| Channel.HandshakeAuthenticates | internal/protocol/conn.go:67-89 | Each end opens the other's ready message if and only if both hold the same link key and saw the true nonces |
| Channel.ProperPeersOnly | internal/protocol/conn.go:54-66 | A hello is accepted exactly from another device of the same version with a nonce of the right size |
| Channel.ReflectedFramesDoNotOpen | internal/protocol/protocol.go:424-438 | A frame sent back to its sender does not open |
| Channel.LockedSendersStayInStep | internal/protocol/conn.go:92-121 | With sealing and writing under one lock the receiver opens every message in order, up to the first that is too large |
| Channel.UnlockedSendersBreak | internal/protocol/conn.go:92-101 | Written in the other order than sealed, neither of two frames opens |
| Channel.Conn.SendMessage | internal/protocol/conn.go:92-101 | Cipher and stream change as `Send` says |
| Channel.Conn.RecvMessage | internal/protocol/conn.go:105-121 | The next frame is taken off the stream and opened, or nothing is returned |
| Channel.Cipher.SealFrame | internal/protocol/protocol.go:424-428 | The frame carries the next nonce of its direction and the counter moves on |
| Channel.SessionInjective | internal/protocol/protocol.go:391-397 | A session key determines link key and both nonces |
| Channel.Cipher.OpenFrame | internal/protocol/protocol.go:431-438 | Only the next frame opens, and only then does the counter move |
| Framing.StreamRoundTrip | internal/protocol/protocol.go:320-380 | For every list of messages and every point at which the stream may break, the reader decodes a prefix of those that fit a frame, whole and in order, and of an unbroken stream all of them |
| Framing.MessageRoundTrip | internal/protocol/protocol.go:320-353 | A message comes back as it was, an empty body as none |
| Framing.DecodesExactlyMessages | internal/protocol/protocol.go:333-353 | A buffer decodes if and only if it is a four-byte length, a header of that length that the coder reads and that names a type, and a body; and then to that message |
| Framing.WhyDecodeFails | internal/protocol/protocol.go:333-353 | What is wrong with the others |
| Framing.DecodersAgree | android/core/src/main/kotlin/com/theformofvoid/voidbridge/core/Protocol.kt:240-271 | On every buffer below 2^31 bytes the two decoders reject the length alike or cut off the same header and body; their results are then equal if and only if the two header coders judge those header bytes alike |
| Framing.MessageCrosses | android/core/src/main/kotlin/com/theformofvoid/voidbridge/core/Protocol.kt:240-271 | What the Go program encodes the Kotlin program decodes to the same message, for header coders that understand each other |
| Framing.WhenDecodeCrashes | internal/protocol/protocol.go:337-343 | Decode panics exactly for a length within four of 2^32 in a buffer that long, so never on a frame |
| Framing.EncodeMessage | internal/protocol/protocol.go:320-330 | The filled buffer is prefix, header and body |
| Framing.Pipe.ReadFrame | internal/protocol/protocol.go:370-380 | Takes exactly one frame off the stream or none |
| Framing.Pipe.WriteFrame | internal/protocol/protocol.go:356-367 | A payload that fits is appended as one frame; one that does not leaves nothing |
| Dib.DIBToImage | internal/clipboard/image.go:50-160 | For every byte string: an error, or exactly w times h pixels, each as specified; no index out of range, bad shift or division by zero |
| Dib.Decode | internal/clipboard/image.go:50-160 | A successful decode has sides within 1..32768 and one pixel per place |
| Dib.ReadHeader | internal/clipboard/image.go:50-107 | Header, masks and palette are read, or rejected with the right fault, as `Parse` says |
| Dib.ReadPixel | internal/clipboard/image.go:119-147 | One pixel of 1, 4, 8, 16, 24 or 32 bits, with masks and palette |
| DibFiles.EveryBitmapReads | internal/clipboard/image.go:50-160 | For every header of 40 bytes or more, every depth, masks in or behind the header, every palette, rows of bytes filled up with zeros to a multiple of four and stored from the bottom or the top: decoding gives, pixel by pixel, what the bytes of its row say; a 32-bit picture with nothing to see in it is taken to be opaque |
| DibFiles.TripleRoundTrip | internal/clipboard/image.go:104-134 | Every opaque picture written with 24 bits a pixel, rows padded, comes back |
| DibFiles.QuadRoundTrip | internal/clipboard/image.go:119-157 | Every picture written with 32 bits a pixel comes back with its alpha, or opaque if it had none |
| DibFiles.PaletteRoundTrip | internal/clipboard/image.go:93-147 | Every picture of palette numbers written with 8 bits a pixel comes back in its colours |
| DibFiles.FiveSixFive | internal/clipboard/image.go:78-140 | A 16-bit pixel behind masks of 5, 6 and 5 bits shows each number scaled |
| DibFiles.DecodesExactly | internal/clipboard/image.go:50-107 | Which byte strings decode, and which fault each of the others has |
| DibLaws.PackedIsSpelled | internal/clipboard/image.go:141-146 | A packed pixel is the number its bits spell out in the row, read from left to right |
| DibLaws.DepthsAgree | internal/clipboard/image.go:97-134 | Three bytes mean the same colour as a 24-bit pixel, as a palette entry and in a plain 32-bit pixel |
| DibLaws.FiveBitsEach | internal/clipboard/image.go:135-140 | A plain 16-bit pixel holds three five-bit numbers, each scaled to 0..255 |
| Bits.ComputeChannel | internal/clipboard/image.go:162-173 | The shifting loop computes the masked field scaled to 8 bits |
| Bits.ChannelIsExact | internal/clipboard/image.go:171-172 | The result is the exact quotient if and only if the product does not wrap |
| Bits.ChannelAlwaysExact | internal/clipboard/image.go:162-173 | Exact for every pixel if and only if the shifted mask is at most 16843009 |
| Bits.ChannelOfAdjacent | internal/clipboard/image.go:162-173 | For up to 24 adjacent mask bits, the number they hold scaled from its range to 0..255 |
| DibLaws.RoundTrip | internal/clipboard/image.go:50-203 | Decoding an encoded image succeeds if and only if both sides are within 1..32768, and gives the image composited onto white |
| DibLaws.OpaqueRoundTrip | internal/clipboard/image.go:50-203 | An opaque image comes back unchanged |
| DibLaws.SecondTripIsExact | internal/clipboard/image.go:50-203 | A second trip changes nothing more |
| DibLaws.Blend | internal/clipboard/image.go:196-198 | Compositing never darkens a channel, leaves opaque ones alone and makes transparent ones white |
| DibLaws.BlendIsExact | internal/clipboard/image.go:196-198 | A blended channel is the exact mixture with white, rounded down |
| DibLaws.NegatedHeightMirrors | internal/clipboard/image.go:64-117 | Negating the height of any byte string changes nothing about its decoding but turns the picture upside down |
| DibLaws.ImageToDIB | internal/clipboard/image.go:179-203 | The encoder's buffer is header and blended pixels in order |
| Limiter.FailuresAreBounded | internal/server/server.go:161-206 | In every run of requests no key has more than nineteen recorded failures in any closed fifteen minutes, and no entry counts more than ten |
| Limiter.NineteenHappens | internal/server/server.go:176-206 | Nineteen is reached |
| Limiter.BlockedExactly | internal/server/server.go:176-206 | A key is blocked exactly when a log that forgets nothing says so: the clean-up never loses a live window |
| Limiter.CountsExactly | internal/server/server.go:264-311 | A request that is looked at and fails counts once against each of its keys; one that succeeds or is turned away against none |
| Limiter.TenWrongBlockTheName | internal/server/server.go:286-311 | Ten wrong passwords for a name, each from another address, turn away every login for it from anywhere until the window has passed; nine do not |
| LimiterRaces.OverlapIsBounded | internal/server/server.go:176-206 | When looking a key up and charging it are separate steps of overlapping requests, no entry counts more than nine and the largest number of requests open for it at once, and fifteen minutes hold at most twice that, less one |
| LimiterRaces.BoundsAreReached | internal/server/server.go:176-206 | For every such number from one up, one run reaches both bounds |
| LimiterRaces.TenHoldsExactly | internal/server/server.go:286-311 | So the limit of ten holds in every run if and only if no two requests for a key are open at once |
| Limiter.Limiter.Fail | internal/server/server.go:190-206 | The table changes as `Record` says, clean-up included |
| Limiter.Limiter.Blocked | internal/server/server.go:176-188 | The answer and the dropped entry are as `Check` says |
| Limiter.Limiter.CleanUp | internal/server/server.go:193-199 | Exactly the expired entries go |
| Limiter.ServeLogin | internal/server/server.go:286-311 | A login consults and charges both of its keys |
| Limiter.ServeRegister | internal/server/server.go:264-281 | A registration with a bad invite charges the address |
| Accounts.NeverLockedOut | internal/server/server.go:381-425 | In every run, from the first registration on there is an enabled admin, and exactly one account became admin by being first |
| Sessions.SignUpExactly | internal/server/server.go:268-281 | A registration makes an account exactly when its inputs allow it, the first one only from nearby and without an invite; it opens with its key and no other and leaves all others as they were |
| Sessions.OnlyTheKeyOpens | internal/server/store.go:174-192 | In every run, from its registration for as long as the account exists, signing in succeeds with its key and no other, unless it is disabled |
| Sessions.LoginExactly | internal/server/store.go:174-192 | What signing in says for each key |
| Sessions.SessionsExactly | internal/server/store.go:195-335 | After any request the sessions are the one it begins, if it admits a device, and those there were except for the ones it ends: its own device's older one, the one signed out, the device forgotten by its user, or those of the account an admin deletes |
| Sessions.SignedInUntilEnded | internal/server/store.go:195-232 | In every run a device that was let in stays signed in: until a request ends its session its token resolves to its account and device whenever the account is enabled |
| Sessions.ResolvesExactly | internal/server/store.go:212-232 | When a token resolves and to what, and that it is noted as seen at most once an hour |
| Sessions.AccountsExactly | internal/server/server.go:253-425 | Which requests make, delete or change an account |
| Sessions.PatchExactly | internal/server/server.go:381-411 | An admin's patch sets what it names and nothing else |
| Accounts.LatePatchLocksOut | internal/server/server.go:381-411 | A patch by anyone let in earlier leaves an enabled admin if and only if it is about their own name, takes nobody out, or leaves another one |
| Accounts.LateDeleteLocksOut | internal/server/server.go:413-425 | The same for a deletion |
| Accounts.ConsoleLocksOut | internal/server/server.go:149-157 | The server console leaves no enabled admin exactly when it disables or demotes the only one |
| Accounts.AdminsDemoteEachOther | internal/server/server.go:381-411 | Two admins let in at the same time can demote each other |
| Accounts.DeletingKillsTokens | internal/server/store.go:322-335 | A deleted account's tokens stay dead even if the name is registered again |
| Accounts.FailedRegistration | internal/server/store.go:139-171 | A registration reports an error and has still changed something if and only if its name, key, invite and the name being free were all in order and only the file could not be written |
| Ledger.InvitesAreConserved | internal/server/store.go:139-396 | In every run uses issued are accounts made with an invite plus uses dropped plus uses left; every stored invite has a use left and is found by the dashed code shown for it |
| Ledger.NoMoreAccountsThanUses | internal/server/store.go:338-396 | Accounts made with an invite never outnumber the uses issued |
| Ledger.InviteLastsExactly | internal/server/store.go:139-171 | An invite lets in as many people as it has uses and nobody after them, however its code is typed, up to the moment it expires and not a moment later |
| Codes.ShownFormMeansTheSame | internal/server/store.go:387-396 | Typing the code as displayed means the code itself, for every input |
| Codes.TyposAreForgiven | internal/protocol/protocol.go:186-201 | Two typed codes mean the same if and only if the characters in them that mean anything are pairwise alike: case, look-alike digits and separators anywhere do not matter, and nothing else is forgiven |
| Codes.WhatCharactersMean | internal/protocol/protocol.go:186-201 | What each typed character stands for |
| Codes.ShownInGroups | internal/server/store.go:387-396 | Invites are shown in three groups of four, group codes in four |
| Codes.NormalizeCode | internal/protocol/protocol.go:186-201 | The loop computes the normal form |
| Store.Store.RegisterUser | internal/server/store.go:139-171 | Accounts and invites change as `Register` says, every error included |
| Store.Store.IssueSession | internal/server/store.go:195-209 | The new token replaces every older one of the same device |
| Store.Store.Resolve | internal/server/store.go:212-232 | A token resolves exactly to an enabled account |
| Store.Store.Remove | internal/server/store.go:322-335 | The account and all its sessions go, nothing else |
| Store.Store.SignOutDevice | internal/server/store.go:267-281 | All sessions of the device go, or it is reported as not found |
| Store.Store.Disable | internal/server/store.go:298-307 | One account's flag changes, its sessions do not |
| Store.Store.Promote | internal/server/store.go:310-319 | One account's admin right changes |
| Store.Store.AddInvite | internal/server/store.go:338-355 | The invite is stored under its code with at least one use and shown dashed |
| Store.Store.ListInvites | internal/server/store.go:358-373 | Expired invites are dropped and the others listed with dashed codes |
| Store.Store.DropInvite | internal/server/store.go:376-385 | The invite the typed code means is deleted |
| History.HistoryIsRecent | internal/node/history.go:36-97 | After any run the history is a prefix of everything recorded since it was cleared, most recent first, no content twice, within both bounds |
| History.NothingLostWhileItFits | internal/node/history.go:36-97 | While everything recorded fits the bounds, the history is all of it |
| History.History.Add | internal/node/history.go:36-60 | The new list is the longest prefix within both bounds of the clip followed by the others |
| History.History.Trim | internal/node/history.go:52-59 | The loop cuts the list at the first item that breaks a bound |
| History.History.SetEnabled | internal/node/history.go:90-97 | Turning recording off clears the list |
| History.History.Clear | internal/node/history.go:83-87 | The list is emptied |
| History.OversizedClipEmpties | internal/node/history.go:52-59 | An added clip leaves the history empty exactly when it alone exceeds a bound |

## Left out

- Sockets, WebSockets, HTTP, TLS, timers and pings: a failed send or read is a connection going down, passing time is an input.
- Peer discovery, dialling and peer exchange (internal/peer), settings, updates, the desktop and Android user interfaces and the real operating-system clipboards.
- Status, device lists and linkTo: which link a file takes does not matter to the network of `Delivery`, where any message may turn up anywhere.
- Password derivation, group codes as key material and the discovery fingerprint: library functions.
- NormalizeUsername: the store's operations take the normalised name.
- The store's file: whether it could be written is an input of each change; loading it back is not modelled.
- Go's defer, panics and goroutine scheduling beyond the lock sections and steps named above.
- FloodTheorems.AnyTopologyConverges: assumes calm runs; `AgreesAgainExactlyIfCalm` and `UncalmRunDiverges` show that the code does not agree without.
- Echo.NoMoreClipsThanCopies: takes whole calls one after another; between the sections of interleaved calls the clipboard is written after the lock is released, and no claim is made.
- Delivery.SuccessMeansDelivered: acks are not sealed, so it assumes that the hub invents no empty one; the hub's failure acks are never empty.
- HubFiles.NoSenderLeftWaiting: an answer counts once the hub has chosen a connection of the sending device for it; whether that last send works is not followed.
- Folder.CommitReplacesNothing: takes the search for a name and the rename as one step, and nobody else changes the folder meanwhile.
- Folder.Directory.CommitFile: writers are entries of the folder's table; the per-writer mutex is not modelled, each call is one step.
- FileNode.Files.HandleFile: the progress callback is dropped, a transfer remembers its writer but not its link, and one file message is handled at a time.
- FileNode.SendFileKotlin: the Kotlin ack queue has no bound; since the first ack found ends the call, it is modelled as the one-place channel of the Go sender.
- Sync.OriginateIsGenuine: the random nonce stored in front of a sealed body is dropped, and a text's bytes are compared, not its runes.
- AndroidEngine.Node.CheckClip: ids are compared by byte; Kotlin compares UTF-16 units, the same for the hexadecimal ids both programs make.
- AndroidEngine.Node.CommitClip: the time of the last sync, shown in the interface, is left out, as it is in the Go engine.
- Channel.ChannelIsSafe: covers sessions of up to 2^64 frames each way, the range in which no nonce repeats.
- Channel.HandshakeAuthenticates: the hello's own framing, size limit and type check are not part of it.
- Framing.StreamRoundTrip: the header coder is abstract, so an error of the coder stands for every malformed header.
- Framing.DecodersAgree: which header bytes encoding/json and org.json judge differently, such as a number for the type, is not modelled; the two coders are parameters.
- LimiterRaces.OverlapIsBounded: the clock is read once in each section, and requests are followed for one key at a time.
- Sessions.SessionsExactly: a new session whose file could not be written is in the store, but its token is not given out; the model gives it out.
- HubDevices.OneConnectionPerDevice: a cancelled connection leaves at some later step or never; nothing is claimed about when.
- FloodNewest.LastCopyWins: clocks are inputs, so it says nothing of copies whose clocks run behind clips already stamped; `Sync.CopyIsStampedNow` says how they are stamped.
- DibLaws.RoundTrip: images start at the origin and are held as non-premultiplied 8-bit pixels; conversion from other image types is a library's.
- Limiter.FailuresAreBounded: each login or registration is one step with one reading of the clock (`OverlapIsBounded` does without); an address is never of the form of a user key.
- Accounts.NeverLockedOut: each request is one step and the console is off; `LatePatchLocksOut`, `LateDeleteLocksOut` and `ConsoleLocksOut` say exactly when requests carried out late lock everyone out.
- Ledger.InvitesAreConserved: drawn codes are twelve letters of the alphabet; an equal code drawn twice counts the old uses as dropped.
- History.History.Add: the stored time is the clip's own milliseconds.

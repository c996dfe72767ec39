# A verified model of project_pl

project_pl is a Windows game-server framework in C++20 with a sibling server in C#. This project
models its protocols, codecs and data structures in Dafny and proves what they promise, over every
input, every run or every reachable state. `dafny verify dfyconfig.toml` verifies all of it.

- **Zone membership** (`zone_*.dfy`). Packet handlers queue commands; one thread swaps the queue out and
  fires them; firing changes zone membership and queues broadcasts, lists and sends; each client rebuilds
  its set of visible characters from its stream. `ZoneModel` is the step system over all sessions,
  `ZoneServer` the server's and client's own operations proved to be its steps. The main results are
  view convergence, that it is always reached, its exact limit for clients that come back, what enter and
  leave requests come to, broadcast order, and that three ticks drain the queue.
- **MD5** (`md5*.dfy`). The incremental interface over any chunking equals the digest RFC 1321 defines
  for the whole message, with the code's unrolled block function on the path; that function equals the
  table-driven one. The digests of section A.5 of RFC 1321 for the shortest messages are computed step by
  step, and every constant is shown to be the sine it stands for.
- **Byte transport** (`circle_buffer.dfy`, `framing.dfy`, `send_path.dfy`, `packets.dfy`,
  `end_to_end.dfy`, `wire_format.dfy`). The ring is a bounded FIFO; the receive path hands on exactly the first frames;
  the send path conserves the byte order; whole conversations arrive, packet by packet.
- **Allocators** (`object_pool.dfy`), the **certify codec** (`certify.dfy`, `certify_tables.dfy`), and the
  C# **send pump**, **packet parser** and **item serials** (`send_pump.dfy`, `packet_parser.dfy`,
  `item_serial.dfy`).
- `common.dfy`, `bytes.dfy` and `bits.dfy` hold what several of these share.

Objects whose methods update fields are classes; each of their methods is proved to be a function on the
object's abstract value, and the results about runs are lemmas about that function. Lock-protected
sections and I/O completions are atomic steps; clocks, random choices and socket completions are
parameters.

Some promises turned out to hold only under a condition. For these there is a lemma with a failing
run and an if-and-only-if:

- A client that leaves never forgets whom it has seen and hears nothing while away, so after it comes
  back its view can show characters that are gone (`ComingBackCanShowLeftovers`). What is left over can
  be told when its enter command runs, and the view is the zone map exactly if every leftover comes
  or goes afterwards (`ReturnShowsZone`).
- Releasing a session can leave its character in the zone for good (`ReleaseCanLeaveBehind`); the exact
  condition is in `ReleaseClears`.
- A leave request has no effect while the session does not know its zone (`LeaveClears` says exactly
  when the character is out in the end; `EnterAdmits` that an enter request is always granted).
- The receive path drops a connection whose frame arrives in two pieces (`SplitFrameDrops`), and a
  completion of no bytes, which is how a peer's close arrives, loses a whole frame that is still
  buffered (`CloseLosesBacklog`); the connection survives exactly while every completion is timely
  (`ReceiveStream`).
- A write of no bytes behind another buffer stalls the send path for good (`EmptyWriteStalls`); on an idle
  one it closes the connection (`IdleEmptyWriteCloses`); a send that the socket refuses inside a write
  stalls it (`RefusedWriteStalls`). The path keeps running exactly if no event is one of these
  (`SendPathExact`).
- The C# parser takes one packet out per call, so a peer that sends faster is rejected in the end
  (`BacklogRejects`); all calls are accepted exactly while each finds room (`ParsesStream`).
- The item serial's 32-bit sequence number wraps after 2^31 calls in one second and then repeats
  (`SecondLimit`, `SerialsIncreaseUnlessWrapped`).

Where the code and its names disagree the model follows the code: a character list packet is declared
for 20 entries, but `SetData` reports "ready" after the first, so every entry travels in a packet of its
own (`SendList`); the C# fill loop compares a growing index with a shrinking queue, so it moves half of
it (`FillMoves`); a bad tail disconnects the connection served before, not the one the packet came
from, and the packet is processed all the same (`ProcessPacket`). Where the code would leave its
buffers or tables (a body within 20 bytes of 2^32, a list or echo announced larger than its array, a
type number beyond the handler table), the model's result says so instead of going on.

## Model

| member | source | states |
|---|---|---|
| ZoneModel.AscendingVisitsAll | project_pl_cpp_20/svr/zone.cpp:35-39 | a loop over the zone's ordered map visits every member exactly once, in increasing token order |
| ZoneModel.QueueStep | project_pl_cpp_20/_lib/command_unit_base.cpp:17-21 | every step takes commands only from the front of the running batch and only appends to the pending list |
| ZoneModel.QueueConserves | project_pl_cpp_20/_lib/command_unit_base.cpp:17-45 | for every run, commands executed followed by commands pending are those pending at the start followed by those added, in order of addition: none lost, repeated or reordered |
| ZoneModel.AddedCommandsWait | project_pl_cpp_20/_lib/command_unit_base.cpp:28-45 | between swaps exactly a prefix of the batch is executed; whatever is added meanwhile waits for a later tick |
| ZoneStreams.ReplayShows | project_pl_cpp_20/cli/user_session.cpp:101-172 | a client that has handled a stream shows exactly the other characters whose last mention in it is an enter or a list entry |
| ZoneStreams.FanOutReachesEachOnce | project_pl_cpp_20/svr/zone.cpp:32-40 | a fan-out puts exactly one packet on the stream of each recipient and none on any other |
| ZoneStreams.SendAllReachesOne | project_pl_cpp_20/svr/command_unit_process.cpp:69-79 | list packets reach their addressee, all and in order, and nobody else |
| ZoneSteps.FireKeepsDue | project_pl_cpp_20/svr/command_unit_process.cpp:7-23 | running a broadcast, send or list moves packets between queue levels without changing, for any member, what it will be sent or in what order |
| ZoneSteps.FireEnterShows | project_pl_cpp_20/svr/command_unit_process.cpp:25-39 | running an enter command makes the newcomer due to be shown to everyone and the whole zone to the newcomer, and nothing else |
| ZoneSteps.FireLeaveShows | project_pl_cpp_20/svr/command_unit_process.cpp:41-52 | running a leave command hides exactly the one who left, from every other member |
| ZoneSteps.StepShows | project_pl_cpp_20/svr/command_unit_process.cpp:7-80 | for any step and any member present before and after it: whoever the step announces is due to be shown exactly if now in the zone, and nothing changes for the others |
| ZoneInvariant.InvStep | project_pl_cpp_20/svr/user_session.cpp:110-160 | every step keeps the protocol invariant: tokens, queue and streams are sane, pending broadcasts do not announce absent characters, every member is due to see every other |
| ZoneInvariant.InvRun | project_pl_cpp_20/svr/user_session_mgr.cpp:61-86 | the invariant holds after every run, releases included |
| ZoneConvergence.MemberView | project_pl_cpp_20/svr/command_unit_process.cpp:25-80 | what a member is due to see after any run: the zone as it is, plus only what it was due before and the run never announced |
| ZoneConvergence.ViewConverges | project_pl_cpp_20/cli/user_session.cpp:112-172 | in every run, a client that has entered the zone and not left shows exactly the other members of the zone map once queue and stream are drained |
| ZoneConvergence.ViewIsZoneAndLeftovers | project_pl_cpp_20/cli/user_session.cpp:154-172 | for any history with leaving and coming back, the exact settled view; it equals the zone map if and only if every leftover was announced again |
| ZoneDelivery.BroadcastsArriveInOrder | project_pl_cpp_20/svr/zone.cpp:32-40 | over every run, a member is sent the broadcasts it was due and then every broadcast queued since, each once and in queueing order, across both queue levels |
| ZoneDelivery.BroadcastFansOut | project_pl_cpp_20/svr/command_unit_process.cpp:7-13 | running a broadcast queues exactly one send per member of the moment, in token order, and changes nothing else |
| ZoneDelivery.ListNamesOthers | project_pl_cpp_20/svr/command_unit_process.cpp:54-80 | running a list command queues one packet with one entry for each other member, in token order, and changes nothing else |
| ZoneDelivery.FireCosts | project_pl_cpp_20/_lib/command_unit_base.cpp:34-45 | firing a command lowers a bound on the remaining work, although commands queue more commands |
| ZoneDelivery.QueueDrains | project_pl_cpp_20/_lib/command_unit_base.cpp:23-45 | from every reachable state ticks alone empty the queue |
| ZoneTicks.ThreeTicksDrain | project_pl_cpp_20/_lib/command_unit_base.cpp:23-45 | three ticks without a new request empty the queue, whatever was in it and however many characters there are |
| ZoneTicks.TwoTicksAreNotEnough | project_pl_cpp_20/svr/command_unit_process.cpp:25-39 | two do not, after an enter |
| ZoneTicks.RunThreeTicks | project_pl_cpp_20/_lib/command_unit_base.cpp:23-45 | the same for three calls on the server object |
| ZoneDelivery.CanSettle | project_pl_cpp_20/svr/process.cpp:163-193 | every reachable state has a continuation of ticks and deliveries that settles a given client |
| ZoneProgress.TicksKeepMember | project_pl_cpp_20/svr/command_unit_process.cpp:25-80 | running commands never queues a leave: without one of its own a member stays in the zone through any ticks and deliveries |
| ZoneProgress.SettlingConverges | project_pl_cpp_20/svr/command_unit_process.cpp:25-80 | after every run, a member that has not left and has no leave queued can be settled by ticks and deliveries alone, and every such continuation that settles it ends with its view equal to the zone map |
| ZoneLimits.ReleaseClears | project_pl_cpp_20/svr/user_session.cpp:28-36 | a release takes the character out of the zone if and only if it was not there, its session still knew the zone, or a leave was already queued |
| ZoneLimits.ReleaseCanLeaveBehind | project_pl_cpp_20/svr/command_unit_process.cpp:41-47 | a run (enter, leave, enter before one tick) after which that condition fails |
| ZoneLimits.ComingBackCanShowLeftovers | project_pl_cpp_20/cli/user_session.cpp:164-169 | a run after which a settled client that came back shows a character that is not in the zone |
| ZoneLimits.DueOnReturn | project_pl_cpp_20/svr/command_unit_process.cpp:25-39 | when an enter command runs, the client is due to show the zone and exactly those leftovers it has been told of, who are absent and of whom no leave broadcast is queued |
| ZoneLimits.ReturnShowsZone | project_pl_cpp_20/cli/user_session.cpp:154-172 | a settled client that came back, whatever its history, shows the zone map if and only if everyone left over when its enter command ran has come or gone since |
| ZoneRequests.EnterAdmits | project_pl_cpp_20/svr/user_session.cpp:133-149 | after any run, an enter request of a live session has it in the zone once the queue is drained, whatever else happens, unless it asks to leave or is released |
| ZoneRequests.AuthenticatedCanEnter | project_pl_cpp_20/svr/user_session.cpp:110-131 | after any run, a newly authenticated session can enter |
| ZoneRequests.LeaveGranted | project_pl_cpp_20/svr/user_session.cpp:151-160 | after any run, a leave request of a session that knows its zone has it out of the zone once the queue is drained, released or not, unless it asks to enter again |
| ZoneRequests.LeaveClears | project_pl_cpp_20/svr/user_session.cpp:151-160 | exactly when a leave request takes the character out: its session knew the zone, or a leave behind its last queued enter was queued already, or it was not there and no enter was queued |
| ZoneRequests.EnterThenLeave | project_pl_cpp_20/svr/user_session.cpp:133-160 | an enter request makes the session know its zone: a leave right behind it is granted |
| ZoneRequests.AuthenticatedKnowsZone | project_pl_cpp_20/svr/user_session.cpp:110-131 | authentication makes the session, keeps the zone id of an earlier enter request, and tells the client its token |
| ZoneRequests.LeaveForgetsZone | project_pl_cpp_20/svr/command_unit_process.cpp:41-52 | running a leave command resets the zone id of exactly that session |
| ZoneRequests.NothingForNobody | project_pl_cpp_20/svr/command_unit_process.cpp:15-23 | commands for a token without a session, or a zone that does not exist, change nothing |
| ZoneRequests.AnonymousQueued | project_pl_cpp_20/svr/user_session.cpp:133-160 | requests before authentication are queued with the token 0 |
| ZoneRequests.RelayArrives | project_pl_cpp_20/svr/user_session.cpp:162-181 | a move, interaction or echo reaches every member that stays, once, behind everything queued before it and before everything queued later |
| ZoneRequests.HeartbeatGoesOut | project_pl_cpp_20/svr/user_session.cpp:71-93 | a heartbeat goes straight to its own client and changes nothing else |
| ZoneServer.GameServer.PacketBroadcast | project_pl_cpp_20/svr/zone.cpp:32-40 | the loop appends one send per member in map order |
| ZoneServer.GameServer.GetCharacterDbList | project_pl_cpp_20/svr/zone.cpp:42-53 | the loop lists everyone but the excepted token, in map order |
| ZoneServer.GameServer.SendList | project_pl_cpp_20/svr/command_unit_process.cpp:69-79 | the packet loop sends one packet per entry and has nothing left for the final send |
| ZoneServer.GameServer.OnEnterCharacter | project_pl_cpp_20/svr/zone_mgr.h:28-40 | registration with zone creation on demand, and the queued broadcast and list, are the model's enter |
| ZoneServer.GameServer.OnLeaveCharacter | project_pl_cpp_20/svr/command_unit_process.cpp:41-52 | position reset, removal and broadcast are the model's leave |
| ZoneServer.GameServer.Operator | project_pl_cpp_20/svr/command_unit_process.cpp:7-80 | every command's operator is the model's execution of it |
| ZoneServer.GameServer.FireOps | project_pl_cpp_20/_lib/command_unit_base.cpp:34-45 | a tick is a swap followed by firing each swapped command in order |
| ZoneServer.GameServer.HandleEnter | project_pl_cpp_20/svr/user_session.cpp:133-149 | the enter handler is the model's enter request |
| ZoneServer.GameServer.HandleLeave | project_pl_cpp_20/svr/user_session.cpp:151-160 | the leave handler is the model's leave request |
| ZoneServer.GameServer.ReleaseSession | project_pl_cpp_20/svr/user_session.cpp:28-36 | releasing a session is the model's release step |
| ZoneServer.CharacterMgr.OnCharacterList | project_pl_cpp_20/cli/user_session.cpp:140-152 | the list loop adds every listed token but the player's own |
| ZoneServer.CharacterMgr.HandlePacket | project_pl_cpp_20/cli/character.cpp:6-61 | the client's handlers and map operations are the model's client step |
| Md5Padding.ZeroCount | project_pl_cpp_20/_external/md5.cpp:376-377 | fewer than 64 zero bytes bring the length after the 0x80 byte to 56 modulo 64 |
| Md5Counter.CounterAdds | project_pl_cpp_20/_external/md5.cpp:334-338 | the two-word counter with its carry counts 8 times the total length modulo 2^64 |
| Md5Counter.CounterOffset | project_pl_cpp_20/_external/md5.cpp:328 | the low counter word gives the position in the block and the padding length for every message length |
| Md5Block.Unrolled | project_pl_cpp_20/_external/md5.cpp:200-302 | the sixty-four updates in place, with their written-out indices, shifts and constants, are the table-driven schedule, whatever one update computes |
| Md5Block.RotateBy | project_pl_cpp_20/_external/md5.cpp:198 | for every shift the code uses, shifting both ways and joining is a rotation |
| Md5Block.SetIsStep | project_pl_cpp_20/_external/md5.cpp:198-206 | the SET macro, with the code's own F, G, H, I and ROTATE_LEFT and the schedule's arguments, is one operation of section 3.4 of RFC 1321 with its rotation |
| Md5Block.ScheduleIsSteps | project_pl_cpp_20/_external/md5.cpp:204-206 | any number of SET operations in schedule order are as many operations of the standard |
| Md5Block.LoadWord | project_pl_cpp_20/_external/md5.cpp:192-193 | adding shifted bytes gives the word with these bytes, low-order first |
| Md5Block.LoadWords | project_pl_cpp_20/_external/md5.cpp:178-194 | the big-endian loading loop computes the sixteen words a little-endian machine reads |
| Md5Block.ProcessIsCompress | project_pl_cpp_20/_external/md5.cpp:132-311 | the block function as the code computes it (load, sixty-four updates, additions) is the standard's |
| Md5Stream.AbsorbConcat | project_pl_cpp_20/_external/md5.cpp:352-354 | folding blocks of a concatenation is folding one part after the other |
| Md5Stream.AbsorbAgrees | project_pl_cpp_20/_external/md5.cpp:352-354 | block functions that agree on 64-byte blocks fold every message alike |
| Md5Stream.LengthBytes | project_pl_cpp_20/_external/md5.cpp:373-375 | the eight bytes saved from the two counter words are the low 64 bits of the bit length |
| Md5Stream.PaddedFillsBlocks | project_pl_cpp_20/_external/md5.cpp:376-379 | the pad is 1 to 64 bytes and finish ends on a block boundary |
| Md5Stream.BlockStream.FillBuffer | project_pl_cpp_20/_external/md5.cpp:340-350 | the partial block is completed and folded exactly when the chunk is long enough, and nothing of the message is lost |
| Md5Stream.BlockStream.AppendBlocks | project_pl_cpp_20/_external/md5.cpp:352-354 | the block loop folds all whole blocks of the chunk |
| Md5Stream.BlockStream.Append | project_pl_cpp_20/_external/md5.cpp:323-359 | for every block function: after any append the state is that of the whole message so far, in counter, registers and the last (length mod 64) bytes in the buffer |
| Md5Stream.BlockStream.LengthData | project_pl_cpp_20/_external/md5.cpp:373-375 | the length loop writes the bit length, low-order byte first |
| Md5Stream.BlockStream.Finish | project_pl_cpp_20/_external/md5.cpp:361-379 | for every block function: finishing leaves the registers of the padded message |
| Md5Stream.HashChunks | project_pl_cpp_20/_external/md5.cpp:313-379 | for every block function and every cutting into chunks: init, appends and finish fold the padded message |
| Md5.InitialRegisters | project_pl_cpp_20/_external/md5.cpp:313-321 | the masked constants are the standard's starting registers |
| Md5.WriteDigest | project_pl_cpp_20/_external/md5.cpp:380-381 | shifting each register down and truncating writes the standard's output bytes |
| Md5.DigestReadsBack | project_pl_cpp_20/_external/md5.cpp:380-381 | read as input words are, the output is the registers |
| Md5.DigestOfChunks | project_pl_cpp_20/_external/md5.cpp:313-382 | for every message and every cutting into chunks, init, appends and finish, with the code's unrolled block function, give the digest the standard defines for the whole message |
| Md5Anchors.DigestOfEmpty | project_pl_cpp_20/_external/md5.cpp:132-382 | the digest of the empty message is d41d8cd98f00b204e9800998ecf8427e |
| Md5Anchors.DigestOfA | project_pl_cpp_20/_external/md5.cpp:132-382 | the digest of "a" is 0cc175b9c0f1b6a831c399e269772661 |
| Md5Anchors.DigestOfAbc | project_pl_cpp_20/_external/md5.cpp:132-382 | the digest of "abc" is 900150983cd24fb0d6963f7d28e17f72 |
| Md5Sine.TableIsSine | project_pl_cpp_20/_external/md5.cpp:66-129 | every constant is the integer part of 4294967296 times the absolute value of sin(i + 1), from the addition theorems and the power series |
| CircleBuffers.WindowGrows | project_pl_cpp_20/_framework/buffer.h:190-204 | bytes stored behind the window, wrapped or not, extend it without disturbing it |
| CircleBuffers.WindowShrinks | project_pl_cpp_20/_framework/buffer.h:239-246 | moving the read cursor, wrapped or not, drops exactly the front |
| CircleBuffers.CircleBuffer.CopyAround | project_pl_cpp_20/_framework/buffer.h:190-204 | the copy goes to the write cursor and on from the head when it reaches the tail |
| CircleBuffers.CircleBuffer.Write | project_pl_cpp_20/_framework/buffer.h:182-207 | appends all or, when it does not fit, changes nothing |
| CircleBuffers.CircleBuffer.Read | project_pl_cpp_20/_framework/buffer.h:209-229 | copies the front without consuming it, or fails |
| CircleBuffers.CircleBuffer.Erase | project_pl_cpp_20/_framework/buffer.h:231-249 | consumes the front, or fails without change |
| CircleBuffers.CircleBuffer.Reset | project_pl_cpp_20/_framework/buffer.h:55-60 | empties the ring |
| CircleBuffers.PerformAll | project_pl_cpp_20/_framework/buffer.h:172-250 | under every sequence of calls a ring reports exactly what a bounded FIFO of bytes reports |
| Framing.MakeNetworkPacket | project_pl_cpp_20/_framework/packet.cpp:8-33 | for every body of a 32-bit size: fills the buffer with the frame and leaves the rest alone; too small exactly if the wrapped length exceeds the capacity; runs past the buffer exactly if that test passes by wrapping |
| Framing.ParseNetworkData | project_pl_cpp_20/_framework/packet.cpp:35-56 | the parser's verdict is a function of the ring's contents only |
| Framing.ParseAnyBytes | project_pl_cpp_20/_framework/packet.cpp:35-56 | the verdict on any bytes whatever: pending below eight, invalid unless four zeros come first, then by the 32-bit length |
| Framing.FrameLayout | project_pl_cpp_20/_framework/packet.cpp:13-27 | every byte of a frame: zeros, length, body, 00 00 00 10, number, time |
| Framing.CompletionOnAnyBytes | project_pl_cpp_20/_framework/connector.cpp:180-215 | one completion on any bytes whatever: exactly what is handed on and exactly when it closes |
| Framing.ParseFrame | project_pl_cpp_20/_framework/packet.cpp:39-55 | with a frame at the front the parser finds exactly it once complete, and waits until then |
| Framing.MadeFramesAreFrames | project_pl_cpp_20/_framework/packet.cpp:13-27 | what the framer builds is a frame to the parser |
| Framing.Connection.DataParser | project_pl_cpp_20/svr/connector_impl.cpp:9-21 | length, 0 while pending, -1 when invalid |
| Framing.Connection.RecvComplete | project_pl_cpp_20/_framework/connector.cpp:180-215 | one completion hands on at most one packet and fails when there is none |
| Framing.Connection.DoRecv | project_pl_cpp_20/_framework/network.cpp:693-697 | a failed completion closes the connection |
| Framing.Connection.OnRecvCompletion | project_pl_cpp_20/_framework/network.cpp:320-346 | a completion of no bytes closes the connection whatever is buffered |
| Framing.ReceiveStream | project_pl_cpp_20/_framework/connector.cpp:180-215 | for any chunking of a stream of frames and then any foreign bytes: the connection survives exactly while every completion is timely (brings bytes, completes one more frame, fits the ring); open or not, exactly one frame per timely completion has been handed on, in order and whole, and nothing foreign ever; and while it is open packets and ring make up all bytes received |
| Framing.SplitFrameDrops | project_pl_cpp_20/_framework/connector.cpp:210-212 | a frame cut in two anywhere is lost with its connection |
| Framing.CloseLosesBacklog | project_pl_cpp_20/_framework/network.cpp:320-346 | two frames in one piece and then a close: the second is lost in the ring |
| Framing.ForeignHeadCloses | project_pl_cpp_20/_framework/packet.cpp:46-48 | frames and then a head with another key, one completion each: exactly the frames are handed on, and the completion with the foreign head closes |
| SendPaths.WriteKeeps | project_pl_cpp_20/_framework/network.cpp:616-656 | a write keeps byte order and reference count, and keeps the path running if and only if the socket takes a send it has to issue |
| SendPaths.CompletionKeeps | project_pl_cpp_20/_framework/network.cpp:658-680 | a completion keeps byte order and count, and keeps the path running if and only if it is not one of no bytes, does not move on to an empty buffer, and the socket takes the next send |
| SendPaths.SendPathExact | project_pl_cpp_20/_framework/connector.cpp:93-158 | for every run of writes, completions of any size, refused sends and drops: bytes written are bytes acknowledged, then the in-flight rest, then the queue; the path is open and not stalled if and only if every event was harmless, a condition on sizes and socket results alone; then a send is on the wire exactly while something is unacknowledged |
| SendPaths.AcknowledgedBytes | project_pl_cpp_20/_framework/connector.cpp:136-158 | on a run that keeps running the bytes acknowledged are exactly as many as the completions reported, from the front of everything the callers wrote |
| SendPaths.WriteReports | project_pl_cpp_20/_framework/network.cpp:616-656 | what a write's result means: accepted and sent in its turn; too long and nothing changed; or refused, held and stalled |
| SendPaths.CompletionLeavesOpen | project_pl_cpp_20/_framework/network.cpp:658-680 | a completion leaves the socket open if and only if it reports some bytes and the send it leads to, if any, is taken |
| SendPaths.ZeroBytesClose | project_pl_cpp_20/_framework/network.cpp:320-346 | a completion of no bytes closes the socket, gives the reference back and leaves every byte where it was |
| SendPaths.WriteWhenClosed | project_pl_cpp_20/_framework/network.cpp:622-625 | a write on a closed socket fails and changes nothing |
| SendPaths.DropCloses | project_pl_cpp_20/_framework/network.cpp:580-605 | a disconnect from elsewhere closes and leaves the buffers where they are |
| SendPaths.SendsInOrderWithoutStall | project_pl_cpp_20/_framework/connector.cpp:93-158 | in particular for non-empty writes and completions of any positive size: the order, a reference of 0 or 1, 0 means everything is acknowledged, 1 means a send is on the wire |
| SendPaths.StallIsForGood | project_pl_cpp_20/_framework/connector.cpp:112-119 | from a stalled state no later write or completion sends anything |
| SendPaths.EmptyWriteStalls | project_pl_cpp_20/_framework/network.cpp:669-679 | after any harmless run, an empty write behind a buffer stalls the path when that buffer completes |
| SendPaths.IdleEmptyWriteCloses | project_pl_cpp_20/_framework/network.cpp:320-346 | after any harmless run, an empty write on an idle path closes the connection when it completes |
| SendPaths.RefusedWriteStalls | project_pl_cpp_20/_framework/network.cpp:643-650 | a send the socket refuses inside a write stalls the path for good |
| SendPaths.Connector.SendPrepare | project_pl_cpp_20/_framework/connector.cpp:112-134 | the object's prepare step is the model's |
| SendPaths.Connector.SendComplete | project_pl_cpp_20/_framework/connector.cpp:136-158 | the object's completion is the model's |
| SendPaths.Connector.NetworkWrite | project_pl_cpp_20/_framework/network.cpp:616-656 | the object's write is the model's on an open or closed socket that takes the send or not, and its result says which |
| SendPaths.Connector.NetworkDoSend | project_pl_cpp_20/_framework/network.cpp:658-680 | the object's completion handler is the model's, with the disconnect after a refused send |
| SendPaths.Connector.OnSendCompletion | project_pl_cpp_20/_framework/network.cpp:320-352 | the worker thread closes the socket on a completion of no bytes and calls the handler otherwise |
| Packets.IntRoundTrip | project_pl_cpp_20/_framework/buffer.h:121-144 | a signed integer of any width survives its bytes |
| Packets.DecodeEncode | project_pl_cpp_20/_framework/packet_protocol_sc.h:36-191 | for every packet with a valid echo size or list count, and whatever follows it, reading undoes writing |
| Packets.DecodeNothing | project_pl_cpp_20/_framework/buffer.h:78-87 | members that are not there stay as they were: an empty body gives the default packet |
| Packets.EchoCutShort | project_pl_cpp_20/_framework/buffer.h:78-87 | an echo whose data is cut short reads as zeros and consumes nothing |
| Packets.PutAllOrNothing | project_pl_cpp_20/_framework/buffer.h:67-77 | a buffer takes a member whole up to 10240 bytes, or not at all |
| WireFormat.BodyIsWire | project_pl_cpp_20/_framework/packet_protocol_cs.h:7-144 | the body of every packet, byte by byte: type number, members in their order and widths, entries and data |
| WireFormat.TypesAreRegistered | project_pl_cpp_20/svr/user_session.cpp:228-237 | which type numbers have a handler, and for which packet |
| Packets.PutPacketFits | project_pl_cpp_20/_framework/buffer.h:67-77 | a packet that fits is appended whole; members that do not fit are dropped one by one |
| Packets.Serializer.Write | project_pl_cpp_20/_framework/buffer.h:67-77 | appends or, when full, changes nothing, wherever the cursors are |
| Packets.Serializer.Read | project_pl_cpp_20/_framework/buffer.h:78-87 | consumes the front or changes nothing |
| Packets.Serializer.Value | project_pl_cpp_20/_framework/buffer.h:121-144 | appends a member when sending, or drops it when the buffer is full; replaces it when receiving, or leaves it when the data is short |
| Packets.Serializer.SerializeEntries | project_pl_cpp_20/_framework/packet_protocol_sc.h:95-101 | the list loop writes or reads every entry, on full and short buffers too |
| Packets.Serializer.Send | project_pl_cpp_20/_framework/packet_protocol_cs.h:34-144 | serialising puts exactly the packet's members, as far as they fit |
| Packets.Serializer.Receive | project_pl_cpp_20/_framework/packet.h:66-73 | deserialising is the decoder, on short and malformed bodies too, and exactly the bodies that announce more than the packet's array holds are reported as such |
| EndToEnd.Execute | project_pl_cpp_20/_framework/packet.h:105-116 | on any body: dispatch by type number hands the decoded packet to the registered handler, or nothing, or finds the type outside the table or the array too small |
| EndToEnd.DispatchByType | project_pl_cpp_20/_framework/packet.h:105-116 | what becomes of any body by its first four bytes |
| EndToEnd.StorageLimits | project_pl_cpp_20/_framework/packet_protocol_sc.h:76-191 | an echo of more than 32 bytes or a list of more than 20 entries does not fit its array |
| EndToEnd.CheckTailBytes | project_pl_cpp_20/svr/process.cpp:96-101 | the tail check on any packet: 00 00 00 10 twelve bytes before the end |
| EndToEnd.FramedRoundTrip | project_pl_cpp_20/svr/user_session.cpp:97-108 | every packet, framed and found at the front of any bytes, is cut out whole, passes the tail check and comes out of the receiver's table as it went in |
| EndToEnd.ConversationArrives | project_pl_cpp_20/_framework/connector.cpp:180-215 | for any packets and any way the network cuts up their bytes, the packets that reach the handlers are exactly the first ones sent, whole and in order, one per timely completion |
| EndToEnd.ProcessPacket | project_pl_cpp_20/svr/process.cpp:96-112 | on any packet the receive path hands on: the tail's verdict, which connection it drops, and the dispatch, which does not depend on it |
| EndToEnd.SendThrough | project_pl_cpp_20/_framework/packet.cpp:8-56 | the same through the serializer, framer and ring objects with the ring's cursors anywhere and other frames waiting in it: these come out first, then the packet; a packet that does not fit changes nothing |
| Certify.JoinGroups | project_pl_cpp_20/_framework/certifyData.cpp:123-127 | the four 6-bit groups are below 64 and rejoin to the three characters |
| Certify.RecoverUndoesConvert | project_pl_cpp_20/_framework/certifyData.cpp:114-180 | over every alphabet of 64 distinct characters recovering undoes converting |
| Certify.ConvertedSpells | project_pl_cpp_20/_framework/certifyData.cpp:114-139 | the four characters written for a group are the table's at positions that spell, six bits each, the twenty-four bits of its three characters |
| Certify.XoredTwice | project_pl_cpp_20/_framework/certifyData.cpp:182-191 | XOR with the key is its own inverse |
| Certify.EncryptedWords | project_pl_cpp_20/_framework/certifyData.cpp:182-191 | encryption is the key XORed into every 32-bit word of the buffer |
| Certify.StringCounts | project_pl_cpp_20/_framework/certifyData.cpp:68-79 | the certify strings digit by digit |
| Certify.AnswerTellsKey | project_pl_cpp_20/_framework/certifyData.cpp:182-191 | two keys have the same answer if and only if they are the same |
| Certify.WrongKeyRefused | project_pl_cpp_20/_framework/certifyData.cpp:267-274 | the answer for one key is accepted under another if and only if they are the same |
| Certify.Position | project_pl_cpp_20/_framework/certifyData.cpp:156-165 | the lookup loop finds a character's position or leaves it as it is |
| Certify.AnswerIff | project_pl_cpp_20/_framework/certifyData.cpp:267-274 | decrypting a response gives the certify string if and only if its first sixty characters are the encrypted string |
| Certify.SameTextIsEqual | project_pl_cpp_20/_framework/certifyData.cpp:272 | comparing with a string without terminators is equality of the first n characters |
| Certify.AcceptsAnswer | project_pl_cpp_20/_framework/certifyData.cpp:267-274 | the comparison succeeds exactly for data whose first sixty characters are the right answer |
| Certify.CertifyData.Encrypt | project_pl_cpp_20/_framework/certifyData.cpp:182-191 | the word-wise loop XORs the key's bytes over the whole buffer |
| Certify.CertifyData.Convert | project_pl_cpp_20/_framework/certifyData.cpp:114-139 | converts the sixty characters in place to eighty |
| Certify.CertifyData.MakeCertifyData | project_pl_cpp_20/_framework/certifyData.cpp:244-259 | the challenge is the converted, encrypted certify string, and the open count rises by one |
| Certify.CertifyData.CheckCertifyData | project_pl_cpp_20/_framework/certifyData.cpp:267-278 | accepts exactly the right answers and then lowers the open count |
| Certify.CertifyDataRecover | project_pl_cpp_20/_framework/certifyData.cpp:27-66 | recovers eighty characters in place to sixty and zeros |
| Certify.ChallengeResponse | project_pl_cpp_20/_framework/certifyData.cpp:244-278 | for every key and table of distinct characters the client's recovery is accepted and the open count is restored |
| CertifyTables.TablesAreAlphabets | project_pl_cpp_20/_framework/certifyConvertData.h:3-15 | each of the ten tables holds sixty-four distinct characters |
| CertifyTables.BaseTables | project_pl_cpp_20/_framework/certifyData.cpp:11-25 | the initialisation loops load exactly these tables |
| CertifyTables.ChallengeWithTables | project_pl_cpp_20/_framework/certifyData.cpp:244-278 | the exchange succeeds for every key and every random choice with the tables as they are |
| ObjectPools.GetKeeps | project_pl_cpp_20/_lib/object_pool_mgr.h:80-92 | a slot handed out was not in use, and free and live slots still partition all slots |
| ObjectPools.GetGrowsWhenEmpty | project_pl_cpp_20/_lib/object_pool_mgr.h:80-92 | the pool grows exactly when nothing is free, by a block twice the last; otherwise the end of the free list is handed out |
| ObjectPools.PutThenGet | project_pl_cpp_20/_lib/object_pool_mgr.h:80-98 | what was given back last is handed out next |
| ObjectPools.PutKeeps | project_pl_cpp_20/_lib/object_pool_mgr.h:94-98 | giving a live slot back keeps the partition |
| ObjectPools.PoolIsSafe | project_pl_cpp_20/_lib/object_pool_mgr.h:16-98 | after every run: partition, 100 * (2^k - 1) slots after k growths, and no live slot is handed out |
| ObjectPools.ObjectPool.AddAlloc | project_pl_cpp_20/_lib/object_pool_mgr.h:29-38 | a growth adds one block of twice the last size and lists its slots |
| ObjectPools.ObjectPool.GetFreeObjectPtr | project_pl_cpp_20/_lib/object_pool_mgr.h:80-92 | the object hands out a slot not in use |
| ObjectPools.ObjectPool.SetFreeObjectPtr | project_pl_cpp_20/_lib/object_pool_mgr.h:94-98 | the object's free is the model's |
| ObjectPools.ObjectPool.Destroy | project_pl_cpp_20/_lib/object_pool_mgr.h:47-55 | every block is returned with the size it was allocated with |
| ObjectPools.WithoutKeeps | project_pl_cpp_20/_lib/object_pool_mgr.h:247-248 | removing from a duplicate-free list removes exactly that element |
| ObjectPools.GetFreeKeeps | project_pl_cpp_20/_lib/object_pool_mgr.h:225-241 | never null, never an object in use; the pool grows threefold or not at all |
| ObjectPools.GetFreeGrowsWhenEmpty | project_pl_cpp_20/_lib/object_pool_mgr.h:225-241 | the manager grows exactly when its free list is empty, threefold; otherwise the front of the list is handed out |
| ObjectPools.SetFreeThenGet | project_pl_cpp_20/_lib/object_pool_mgr.h:225-251 | what was freed last is handed out next, and nothing else moves |
| ObjectPools.SetFreeKeeps | project_pl_cpp_20/_lib/object_pool_mgr.h:243-251 | repeated and foreign frees change nothing |
| ObjectPools.ManagerConserves | project_pl_cpp_20/_lib/object_pool_mgr.h:178-251 | after any call sequence the lists are duplicate-free and partition the pool, whose count is its size and n0 * 3^k |
| ObjectPools.ObjectPoolMgr.GetFreeObject | project_pl_cpp_20/_lib/object_pool_mgr.h:225-241 | the object's get is the model's |
| ObjectPools.ObjectPoolMgr.SetFreeObject | project_pl_cpp_20/_lib/object_pool_mgr.h:243-251 | the object's free is the model's |
| SendPump.FillMoves | project_pl_cs_9/_Network_v2/NetSession.cs:88-93 | with n queued and none pending exactly min(10, ceil(n/2)) move, from the front, and nothing else changes |
| SendPump.CompletedDrains | project_pl_cs_9/_Network_v2/NetSession.cs:102-113 | the recursion of completion and send ends and, when sends complete at once, drains everything in order |
| SendPump.CompletedSends | project_pl_cs_9/_Network_v2/NetSession.cs:102-113 | a send that goes well counts all that was pending as sent and goes on with the queue |
| SendPump.FailedSendsNothing | project_pl_cs_9/_Network_v2/NetSession.cs:117-120 | a send that fails or transfers nothing disconnects and leaves its buffers pending |
| SendPump.SentInOrder | project_pl_cs_9/_Network_v2/NetSession.cs:73-121 | for every run, with sends failing anywhere in it, sent, pending and queued buffers are the enqueue order; nothing waits when nothing is pending on a connected session; and it stays connected unless a send fails |
| SendPump.StaysDown | project_pl_cs_9/_Network_v2/NetSession.cs:80-83 | after a failed send nothing more is sent |
| SendPump.NetSession.MoveToPending | project_pl_cs_9/_Network_v2/NetSession.cs:89-92 | the fill loop against the shrinking queue |
| SendPump.NetSession.Enqueue | project_pl_cs_9/_Network_v2/NetSession.cs:73-78 | the object's send call is the model's |
| SendPump.NetSession.DoSend | project_pl_cs_9/_Network_v2/NetSession.cs:80-100 | the object's send step is the model's |
| SendPump.NetSession.OnSendCompleted | project_pl_cs_9/_Network_v2/NetSession.cs:102-121 | the object's completion is the model's, with the disconnect when the send failed or transferred nothing |
| PacketParsers.ParseAnyBytes | project_pl_cs_9/Server/PacketParser.cs:23-46 | what a call does with any bytes whatever: refuse, wait, throw or deliver |
| PacketParsers.FrameLayout | project_pl_cs_9/_Network/Packet.cs:7-97 | every byte of a frame |
| PacketParsers.FrameReads | project_pl_cs_9/_Network/Packet.cs:91-97 | the reader finds in a frame the length and body the writer put there |
| PacketParsers.ParseFrame | project_pl_cs_9/Server/PacketParser.cs:31-45 | one call delivers the packet at the front exactly when it is complete and realigns the rest |
| PacketParsers.ParsesStream | project_pl_cs_9/Server/PacketParser.cs:23-46 | for any chunking of a stream of frames: all calls are accepted if and only if each finds room beside the frames not yet taken out, a condition on lengths alone; then delivered packets and buffered bytes make up all bytes received, and the number delivered is exact |
| PacketParsers.BacklogRejects | project_pl_cs_9/Server/PacketParser.cs:24-45 | when calls bring two frames each on average, one of them is rejected in the end |
| PacketParsers.PacketParser.BufferTrim | project_pl_cs_9/Server/PacketParser.cs:48-53 | the in-place shift keeps exactly the bytes behind the read position |
| PacketParsers.PacketParser.DataParsing | project_pl_cs_9/Server/PacketParser.cs:23-46 | the object's step is the model's, with currPos equal to recvLength, for rejected and malformed input too |
| ItemSerials.PackedIsComposed | project_pl_cs_9/_Common/Character.cs:218 | the shifts and ors of sign-extended 64-bit values put time, server and the low 24 sequence bits into disjoint places |
| ItemSerials.PackInjective | project_pl_cs_9/_Common/Character.cs:218 | a serial decodes uniquely into time, server and sequence |
| ItemSerials.PackOrdered | project_pl_cs_9/_Common/Character.cs:218 | serials are ordered by time, then sequence, and fit 64 bits |
| ItemSerials.EveryCall | project_pl_cs_9/_Common/Character.cs:205-219 | under a non-decreasing clock, what every single call gives: an exception if and only if its place in its second is from 2^24 to 2^31 - 1 modulo 2^32, otherwise time * 2^32 + server * 2^24 + the low 24 bits of the place |
| ItemSerials.NoneThrows | project_pl_cs_9/_Common/Character.cs:205-219 | no call of a run throws if and only if no second sees more than 2^24 calls (one fewer in second 0) |
| ItemSerials.SerialsIncreaseUnlessWrapped | project_pl_cs_9/_Common/Character.cs:205-219 | under a non-decreasing clock serials strictly increase over the whole run, overflow exceptions included, if and only if no second sees enough calls to wrap the 32-bit sequence |
| ItemSerials.SecondLimit | project_pl_cs_9/_Common/Character.cs:212-215 | a single second takes exactly 2^31 calls before a serial repeats |
| ItemSerials.ServersNeverCollide | project_pl_cs_9/_Common/Character.cs:202-218 | generators with different server ids never hand out the same serial |
| ItemSerials.GeneratorItemSN.GenerateSN | project_pl_cs_9/_Common/Character.cs:205-219 | the object's step is the model's |

## Left out

- Sockets, IOCP, AcceptEx, threads, locks and events: foreign calls; a socket's answer and a completion are parameters.
- Character pointers between a session's release and its leave command: members are tokens, so a zone never holds a dangling pointer.
- Positions of characters: move packets travel as `Relay` and do not change membership.
- Tokens are issued once each and a session authenticates at most once; the model's `Auth` step assumes it.
- Zone and ZoneMgr are fields of one server class, not objects of their own, so aliasing between zones is not modelled.
- md5_process is a chain of bindings instead of assignments, so that the streaming class can take it as its block function; everything else of MD5 is updated in place.
- The sine function itself: `TableIsSine` holds of anything that satisfies the addition theorems and lies between the partial sums of the power series.
- SendPaths.Connector.OnSendCompletion: the request buffer that a connector without a session frees when its socket closes stays in the model as unacknowledged.
- Memory outside a buffer, array or table: where the code would read or write it, the model reports that instead of saying what is found there.
- Encrypt with a 64-bit key or a string key, Serializer FLOAT and DOUBLE, MakeMD5 and CheckMD5: not on the modelled paths.
- ObjectMgrBase, MySQL, configuration, logging, time, QUIC and asio samples and console clients: plumbing around the modelled parts, without a protocol or data structure of their own.
- PacketParsers.PacketParser.DataParsing: the packet handler's task scheduling behind the enqueue is not modelled.
- C# packet classes other than the generic head, body and tail: the same serialisation as the C++ packets.

# Backhaul tunnel: a verified model

This project models the parts of the Backhaul tunnel that carry bytes, count
connections and read port lists, and proves what they are for. It has four parts.

**The multiplexer.** `simpleMuxSession` and `simpleMuxStream` carry many byte streams
over one connection with nine-byte headers. `MuxModel` has two ends, an opener (the
server) and an acceptor (the client), joined by two FIFO byte pipes; every step of
either end is a function on the end's value. `MuxInvariant` to `MuxTheorems` prove that
every step keeps one invariant, `MuxRuns` reads the theorems off it: conservation of
every stream's bytes, no cross-talk, no early drop, close discipline. `MuxSession` holds
the same code as classes with mutable fields and loops; each method's postcondition
gives the object's new value as the model's step applied to the old one. `MuxCalls` says
what whole calls and each kind of frame come to. `PushWindow`
splits the one pair that the model's steps hold together: it says what every run of an
end then does to a queue, and which runs of both ends are still runs of `MuxModel`.
`Holder` is the round robin over sessions.

**The layers under and over it.** `Framing` is one theory of reassembly for every
length-prefixed format: a codec that obeys two laws recovers the frames that were sent
from any split of the bytes. `MuxWire`, `Prefixed` (Slipstream chunks and datagrams),
`WebSocket` and `TypedFrames` are instances. `Slipstream`, `WebSocket`, `Preamble` and
`Datagrams` are the connections as classes with loops, proved against their codecs.
`Layers` composes them. What an end of the multiplexer puts out is what the pipe under it
takes, whole or up to the part at which the pipe broke; the classes of each layer are
proved to write so; and every step an end can take has a successor over every kind of
pipe. A run of the two ends over raw, Slipstream or WebSocket pipes, behind the token and
role lines, is then a run of `MuxModel`, so datagrams sent at one end come out as a
prefix of the same list at the other, and all of them once nothing is left on the way.
`Relay` is the loop that puts them on a stream.

**The original TCP protocol and the UDP tables.** `ControlRace` runs the
`handleAccepted` goroutines of the server step by step, with the lock, the two looks at
the control slot and the worker queue. `WorkerAccounting` adds the client that dials a
worker for every request. `Associations`, `UdpControl` and `PublicUdp` are the two tables
from source address to connection, whose entries are deleted by key by another goroutine.

**Port lists.** `Scanner` splits the configuration file into lines, `ConfigList` is the
loop over them, `Mapping` the expansion of each item, `Targets` the shortened form of a
target on the wire and its restoration, `Text` the string functions and decimal numbers
they rest on, and `Utf8` the bytes of text.

`Wrappers`, `Bytes` and `Conn` hold what the others share. `Conn.ByteConn` is the
connection under every layer: a read returns any non-empty part of what is there, and a
write that fails may leave any part of its argument behind, after which the connection
is dead.

## What the proofs found

- A token that begins or ends with white space, ASCII or not, never authenticates: the
  server trims the line it reads and compares it with its own untrimmed token
  (`internal/tunnel/runner.go:1089-1091`). `Preamble.PreambleHandoff` gives the exact
  condition on the token's bytes, `Preamble.SpacedTokenRefused` two such tokens, one with
  a blank and one with a no-break space.
- The loopback spellings `localhost`, `::1` and the empty host do not survive the wire:
  they are dialled as `127.0.0.1`. `Targets.WireRoundTrip` says exactly which targets
  come back, `Targets.TargetArrives` adds the bound that the frame's length field sets,
  `Targets.LoopbackUndone` says what becomes of the others, `Targets.LocalhostChanged` is
  one of them.
- A mapping list over several lines is cut short when an item other than the last holds
  a closing bracket, and an item is altered by a `#`, by a newline inside, or by a quote,
  comma or space at its ends; a line of more than 65535 bytes fails the whole file.
  `ConfigList.LinesRoundTrip` and `ConfigList.OneLineRoundTrip` give the exact conditions
  on the printed text; on one line brackets do no harm, inner commas do, and the bound is
  on the whole list. `ConfigList.BracketCutsList`, `ConfigList.NewlineSplitsItem` and
  `ConfigList.CommaSplitsItem` are such lists. An item on the line that opens a longer
  list always keeps the quote and comma behind it (`ConfigList.OpeningItemKeepsComma`).
- Stream ids repeat exactly after 2^32 opens (`MuxInvariant.IdsDistinct`), which is why
  the theorems on runs ask for at most 2^32.
- The host of a `range=host:port` item is dropped (`internal/tunnel/mapping.go:51-58`).
  `Mapping.HostKept` says exactly when the item goes where it says, `Mapping.HostDropped`
  is an item that does not. So is a host in front of a listening port
  (`Mapping.ListenHostDropped`, `Mapping.HostedAlone`): the item listens on every address.
- A worker whose control connection is cleared while it is being dialled may be read as a
  hello (`WorkerAccounting.WorkerLost`) and closed, and its request then waits for nothing
  (`WorkerAccounting.WorkerClosed`). `WorkerAccounting.EveryRequestHasAWorker` says of every
  run exactly when as many workers are coming as requests wait: when no more were lost
  than there were to spare. While that control is in place none is lost as a hello.
- A push meets a closed queue exactly when the queue is closed between finding the stream
  and pushing to it (`PushWindow.MisuseIffClosedBetween`), which no lock prevents;
  `PushWindow.CloseInWindow` is such a run.

## Assumptions on steps

Each Go function is cut into steps where another goroutine may come in between. These
are one step although the code holds no lock across them: finding a stream and pushing
to it (`internal/tunnel/runner.go:2146-2151`); marking a stream closed and taking it out
of the table (`internal/tunnel/runner.go:2278-2281`); the whole of a session's `Close`;
at a peer's CLOSE, closing the queue and taking the stream out
(`internal/tunnel/runner.go:2157-2158`); and at an OPEN, listing the stream and putting
it in the backlog (`internal/tunnel/runner.go:2137-2145`). That a listed stream has an
open queue at every step boundary rests on the fourth. What the first leaves out, a
stream closed between the two, is the subject of `PushWindow`, where the pair is split.
Everything else is a step of its own: allocating an id, registering, writing OPEN, each
chunk of a write, the CLOSE frame, a local close of the queue, `ingestLoop` taking a
chunk and storing it, each `Read`, each `Accept`, each frame that `readLoop` handles,
and bytes arriving in any portion.

## Model

| member | source | states |
|---|---|---|
| MuxRuns.Conservation | internal/tunnel/runner.go:2112-2285 | in every reachable state, for each stream and direction: bytes returned by Read, buffered, in ingestLoop's hand, queued and still on the pipe are together the bytes written while the reader's stream is listed; afterwards what was received is a prefix |
| MuxRuns.ReadsArePrefixes | internal/tunnel/runner.go:2215-2275 | what Read has returned is a prefix of what was written, and all of it once nothing is left on the way |
| MuxRuns.NoCrossTalk | internal/tunnel/runner.go:2134-2160 | whatever frame is handled, however late, changes no stream but the one its writer belonged to |
| MuxRuns.NoEarlyDrop | internal/tunnel/runner.go:2096-2160 | a DATA or CLOSE frame finds its writer's stream, and when it finds none that stream had existed there and had been closed |
| MuxRuns.OneIdPerStream | internal/tunnel/runner.go:2096-2110 | within 2^32 opens no two streams share an id, and both ends of a stream have the same one |
| MuxRuns.CloseDiscipline | internal/tunnel/runner.go:2070-2083 | listed streams have open queues; a queue is closed at most once, whichever of stream Close, peer CLOSE, overflow and session Close come together, and never sent to afterwards; at most 256 chunks wait; end of file comes only after every received byte was returned |
| PushWindow.MisuseIffClosedBetween | internal/tunnel/runner.go:2146-2151 | with finding and pushing split, in every run of an end and whatever its peer sends: a push meets a stream's closed queue if and only if the queue was closed between the two |
| PushWindow.CloseInWindow | internal/tunnel/runner.go:2228-2239 | such a run, from the start of an end, for any id and payload |
| PushWindow.PushDoes | internal/tunnel/runner.go:2228-2239 | a push is a misuse on a closed queue and only there, opens and closes no queue, and touches no other stream |
| PushWindow.SplitRefinesMux | internal/tunnel/runner.go:2134-2160 | over both ends and the pipes: a split run in which the table still leads to the stream at every push reaches only states that the model with the pair as one step reaches |
| MuxRuns.PeerCloseComesLast | internal/tunnel/runner.go:2152-2158 | when a peer's CLOSE is handled every byte written before it has been received, and only bytes written after it are missing |
| MuxRuns.AcceptedOnce | internal/tunnel/runner.go:2085-2094 | a listed stream of the acceptor is either accepted or waits in exactly one place of the backlog |
| MuxTheorems.StepKeepsInv | internal/tunnel/runner.go:2070-2285 | every step of either end, and every arrival of bytes, keeps the invariant |
| MuxInvariant.IdsDistinct | internal/tunnel/runner.go:2100 | two opens get the same id exactly when their distance is a multiple of 2^32 |
| MuxInvariant.FramesArriveInOrder | internal/tunnel/runner.go:2112-2132 | the frames decoded from any arrived part of an end's bytes are a prefix of the frames it wrote, even when a write failed half way |
| MuxWire.MuxCodecLawful | internal/tunnel/runner.go:2112-2180 | header and payload decode to the frame whatever follows, and no proper prefix of a frame decodes |
| MuxWire.HeaderLayout | internal/tunnel/runner.go:2162-2180 | nine bytes: type, then id and length, four bytes each with the one that counts most first |
| Framing.Reassembly | internal/tunnel/runner.go:2112-2132 | for any lawful format and any split: the frames recovered are exactly those complete in what has arrived, in order |
| Framing.ReassemblyGrows | internal/tunnel/runner.go:2112-2132 | further bytes never undo a frame already recovered |
| MuxSession.ReadAllFrames | internal/tunnel/runner.go:2112-2132 | the header-then-payload loop returns exactly the complete frames of the stream, for every splitting of reads |
| MuxSession.MuxSession.HandleFrame | internal/tunnel/runner.go:2134-2160 | handleFrame's new state is the model's step, followed by the rest of Close when a full queue or backlog closed the stream, whatever the frame and the stream |
| MuxCalls.OpenArrives | internal/tunnel/runner.go:2136-2145 | an OPEN frame makes a stream under its id at the end of the backlog of at most 1024 |
| MuxCalls.OpenOverflows | internal/tunnel/runner.go:2141-2145 | with 1024 waiting the stream is closed and out of the table again |
| MuxCalls.DataArrives | internal/tunnel/runner.go:2146-2239 | a payload goes to the end of its stream's queue of at most 256 chunks, or closes the stream when that is full; an empty one does nothing |
| MuxCalls.CloseArrives | internal/tunnel/runner.go:2152-2158 | a CLOSE frame closes the queue, leaves what waits in it, and takes the stream out of the table |
| MuxCalls.OthersDropped | internal/tunnel/runner.go:2134-2160 | other kinds and unknown ids change nothing |
| MuxSession.MuxSession.NameFor | internal/tunnel/runner.go:2136-2140 | for every id an OPEN frame may carry there is a name for the stream object it makes |
| MuxSession.MuxSession.OpenStream | internal/tunnel/runner.go:2096-2110 | OpenStream registers before it announces, sends one OPEN frame, and takes the stream out again when that fails; nothing on a closed session |
| MuxCalls.OpenStreamDoes | internal/tunnel/runner.go:2096-2110 | the stream is in the table under the next id with one OPEN frame out, or the id is out of the table and nothing went out |
| MuxSession.MuxSession.Write | internal/tunnel/runner.go:2257-2275 | Write sends its argument as non-empty chunks of at most 32768 bytes up to the first that fails, and what the stream counts as written is those that went; refused on a closed stream or session |
| MuxCalls.WriteSendsData | internal/tunnel/runner.go:2257-2275 | the chunks go out as DATA frames of the stream, one each, in order |
| MuxSession.MuxSession.WriteFrame | internal/tunnel/runner.go:2162-2180 | a frame goes out whole, or a proper part of it does and the connection is dead, or nothing does |
| MuxSession.MuxSession.CloseStream | internal/tunnel/runner.go:2277-2285 | only the first Close does anything: out of the table, CLOSE frame, queue closed |
| MuxCalls.CloseStreamDoes | internal/tunnel/runner.go:2277-2285 | the first Close takes the stream out of the table, sends one CLOSE frame if anything can be sent, closes the queue and leaves what waits in it; every further one changes nothing |
| MuxSession.MuxStream.RemoteClose | internal/tunnel/runner.go:2241-2243 | the queue is closed, and by closeOnce not closed again |
| MuxSession.MuxSession.Close | internal/tunnel/runner.go:2070-2083 | session Close leaves the session closed, the queue of every stream that was listed closed and the table empty, and does so once |
| MuxCalls.CloseSessionDoes | internal/tunnel/runner.go:2070-2083 | the same of the model's step, which puts nothing out and leaves unlisted streams alone |
| MuxCalls.ClosedForGood | internal/tunnel/runner.go:2070-2180 | in every run after it, that end stays closed, takes no further stream number and puts not a byte more on its pipe |
| MuxCalls.ClosedRefuses | internal/tunnel/runner.go:2096-2180 | on a closed session no number is taken, no OPEN, DATA or CLOSE frame goes out, and a stream that was being opened is out of the table |
| MuxSession.MuxSession.Accept | internal/tunnel/runner.go:2085-2094 | Accept hands out the oldest stream of the backlog; with a filled backlog it returns nothing only once the session is closed or the caller has given up, and then takes nothing |
| MuxSession.MuxStream.Read | internal/tunnel/runner.go:2245-2255 | Read hands out exactly the bytes that come off the front of the buffer, up to the room there is, and counts those as delivered; it waits while the buffer is empty, and reports end of file only when it is empty and closed |
| MuxModel.ReadTakesFront | internal/tunnel/runner.go:2245-2255 | the same of the model's step |
| MuxCalls.DrainStoresAll | internal/tunnel/runner.go:2215-2226 | ingestLoop left to itself stores every byte that has reached the stream, in order, and reports a closed queue |
| MuxCalls.EndIsReached | internal/tunnel/runner.go:2215-2255 | then one Read with room for all returns all of it and the next one the end of the stream |
| MuxSteps.TakeKeeps | internal/tunnel/runner.go:2215-2226 | taking the oldest chunk out of the queue keeps the stream well formed and every received byte in its place |
| MuxSteps.StoreKeeps | internal/tunnel/runner.go:2215-2226 | so does storing it behind what is buffered |
| Holder.RoundRobinFair | internal/tunnel/runner.go:2025-2041 | with k sessions open and no change, any k calls in a row return each open session exactly once, from any position |
| Holder.TurnRotates | internal/tunnel/runner.go:2025-2041 | a choice turns the order of the open sessions by one |
| Holder.ChoiceIsFirst | internal/tunnel/runner.go:2025-2041 | the choice is the first open session at or behind `next`, round the end, and `next` moves to the place behind it |
| Holder.NoChoice | internal/tunnel/runner.go:2025-2041 | there is none exactly when all are closed |
| Holder.MuxHolder.NextSession | internal/tunnel/runner.go:2025-2041 | the loop returns the first open session in order and moves `next` behind it, or nothing when all are closed |
| Holder.MuxHolder.FirstFrom | internal/tunnel/runner.go:2031-2039 | the loop itself finds the index that the choice names |
| Holder.MuxHolder.Remove | internal/tunnel/runner.go:1992-2005 | compaction in place equals the order-keeping filter, and `next` stays in range |
| Holder.KeptInOrder | internal/tunnel/runner.go:1992-2005 | what stays is every open session but the removed one, each place once, in the old order |
| Holder.MuxHolder.Add | internal/tunnel/runner.go:1986-1990 | Add appends |
| Slipstream.SlipRoundTrip | internal/tunnel/runner.go:1914-1969 | from any part of the wire the reader has a prefix of the plaintext, and its offset plus the bytes in flight is the writer's offset modulo 2^64 |
| Slipstream.MaskAllTwice | internal/tunnel/runner.go:1965-1969 | masking a list of chunks twice from one offset gives it back |
| Slipstream.MaskAt | internal/tunnel/runner.go:1937-1969 | every byte of the stream is masked with the byte of the key at its own position modulo 32, however the stream was cut |
| Bytes.XorAt | internal/tunnel/runner.go:1965-1969 | exclusive or, bit by bit |
| Slipstream.WrapKeepsKeyPosition | internal/tunnel/runner.go:1965-1969 | the key position goes on across the wrap of the 64-bit offset |
| Slipstream.HandshakeAgrees | internal/tunnel/runner.go:1850-1898 | both ends hash the same nonces in the same order, so hold the same key |
| Slipstream.WrapServer | internal/tunnel/runner.go:1850-1873 | the server reads twenty bytes, checks the magic, answers, and starts at offset 0 on both sides |
| Slipstream.WrapClient | internal/tunnel/runner.go:1875-1898 | the client does the same the other way round |
| Slipstream.SlipConn.Read | internal/tunnel/runner.go:1914-1935 | Read hands over the next bytes of the plaintext, end of file only when none are left |
| Slipstream.SlipConn.Write | internal/tunnel/runner.go:1937-1963 | Write puts the masked chunks of its argument on the wire and advances the offset by its length; when it fails the first few are out and a part of the next that never completes |
| Slipstream.SlipConn.MaskInPlace | internal/tunnel/runner.go:1965-1969 | the in-place loop masks every byte at its own position |
| WebSocket.WsLawful | internal/tunnel/runner.go:1740-1848 | parsing undoes all three length forms and both masking modes (sections 5.2 and 5.3 of RFC 6455) |
| WebSocket.LengthLayout | internal/tunnel/runner.go:1782-1825 | the length byte with the mask bit, or 126 and two bytes, or 127 and eight (section 5.2 of RFC 6455) |
| WebSocket.FrameLayout | internal/tunnel/runner.go:1782-1825 | first byte, length, masking key, and each byte of the payload masked with the byte of the key at its position modulo four (section 5.3 of RFC 6455) |
| WebSocket.FrameMeans | internal/tunnel/runner.go:1766-1779 | opcodes 0, 1 and 2 add their payload, 8 ends the data, any other adds nothing |
| WebSocket.CloseEndsData | internal/tunnel/runner.go:1766-1779 | nothing behind a close frame is read |
| WebSocket.WsRoundTrip | internal/tunnel/runner.go:1699-1780 | reads over any valid frames give a prefix of the data payloads up to the first close frame, all of them at the end |
| WebSocket.ControlFramesInvisible | internal/tunnel/runner.go:1766-1779 | a ping, pong, unknown or empty frame anywhere makes no difference to what is read |
| WebSocket.BinaryData | internal/tunnel/runner.go:1710-1727 | what Write's frames mean to a reader is the argument |
| WebSocket.WsConn.Write | internal/tunnel/runner.go:1710-1727 | Write sends binary frames, masked exactly at a client, whose payloads are the pieces of the argument; when it fails the first few are out and a part of the next that never completes |
| WebSocket.WsConn.WriteFrame | internal/tunnel/runner.go:1782-1825 | writeFrame puts out one final frame of that opcode and payload in the right length form, or a proper part of it unless the empty masked payload is what failed |
| WebSocket.WsConn.Read | internal/tunnel/runner.go:1699-1708 | Read hands over the next data bytes, end of file only when none are left before a close frame |
| WebSocket.WsConn.ReadNextDataFrame | internal/tunnel/runner.go:1740-1780 | one frame is consumed; data is buffered, a ping answered with a pong of its payload and nothing else written, a close ends the stream |
| Preamble.PreambleHandoff | internal/tunnel/runner.go:1076-1095 | the client's two lines are accepted exactly when the trimmed token is the expected one, with one token on both ends if and only if it is one line and neither begins nor ends with the bytes of a white space character; the bytes behind them come out once and in order |
| Preamble.SpacedTokenRefused | internal/tunnel/runner.go:1089-1092 | two tokens that the same token on both ends does not let in: a blank and x, U+00A0 and x |
| Preamble.TrimIsSelf | internal/tunnel/runner.go:1090 | trimming leaves exactly those bytes as they are that neither begin nor end with a white space character |
| Preamble.TrimOfText | internal/tunnel/runner.go:1090 | on valid text, trimming the bytes is trimming the characters |
| Utf8.FirstCharExact | internal/tunnel/runner.go:1090 | the first character found is c exactly when the bytes of c stand in front (section 3 of RFC 3629) |
| Utf8.LastCharExact | internal/tunnel/runner.go:1090 | the same at the end |
| Utf8.KnownCharacters | internal/tunnel/runner.go:1090 | one character of each length as bytes |
| Preamble.Authenticate | internal/tunnel/runner.go:1076-1095 | accepted exactly when both lines arrive and the token fits, with the reader right behind them |
| Preamble.BufReader.ReadLine | internal/tunnel/runner.go:1080-1088 | the line is the first line of the stream however far the reader read ahead, and nothing of the rest is lost |
| Preamble.BufReader.Read | internal/tunnel/runner.go:1467-1474 | what was read ahead comes first, then the connection, nothing twice |
| Preamble.TargetLineRoundTrip | internal/tunnel/runner.go:578-590 | for every target: it comes back from the stream it is sent on, with its kind, if and only if it is one line, has no white space character, ASCII or not, at its ends, and a TCP target does not begin with the UDP tag, a UDP target is not empty |
| Datagrams.DatagramsArePrefix | internal/tunnel/runner.go:1440-1465 | from any part of the stream the reader has a prefix of the datagrams, empty ones included |
| Datagrams.WriteDatagram | internal/tunnel/runner.go:1440-1451 | a datagram of up to 65535 bytes goes out framed as it is, a longer one as its first 65535, or a part of its frame does and the connection is dead |
| Relay.WriteDatagram | internal/tunnel/runner.go:1440-1451 | on a stream of the multiplexer: the stream takes that frame whole, or a proper part of it when the stream or session is closed or the connection lost |
| Relay.WriteAll | internal/tunnel/runner.go:1422-1435 | the relay's writing loop: of datagrams that fit, what the stream takes is the beginning of the list framed, all of it if and only if no write failed |
| Datagrams.ReadDatagram | internal/tunnel/runner.go:1453-1465 | exactly one complete frame is taken off the stream, or there is none |
| Datagrams.ReadAllDatagrams | internal/tunnel/runner.go:1410-1421 | the relay's read loop gets exactly the complete datagrams with their boundaries |
| Prefixed.PrefixedLawful | internal/tunnel/runner.go:1440-1465 | length-prefixed blocks of at most 65535 bytes reassemble from any split |
| Prefixed.PrefixedLayout | internal/tunnel/runner.go:1440-1451 | two bytes of length, the one that counts most first, then the block |
| Layers.PipeDeliversPrefix | internal/tunnel/runner.go:1699-1969 | raw, Slipstream and WebSocket pipes are reliable byte streams: what comes out is a prefix of what went in |
| Layers.OutGrows | internal/tunnel/runner.go:1699-1969 | more raw bytes never undo what a layer has handed over |
| Layers.ArrivalIsCarry | internal/tunnel/runner.go:1699-1969 | arrival of raw bytes under the layers is arrival of bytes at the multiplexer |
| Layers.StackRefinesMux | internal/tunnel/runner.go:1076-2285 | every state the layered system reaches is one the multiplexer's model reaches, each pipe having taken exactly what its end has written |
| Layers.StackCanStart | internal/tunnel/runner.go:630-633 | the start of such runs exists over each kind of pipe |
| Layers.EveryStepHasASuccessor | internal/tunnel/runner.go:2070-2285 | every step an end can take, sending or not, is a step of the layered system over any kind of pipe that is not broken |
| Layers.ArrivalHasASuccessor | internal/tunnel/runner.go:1699-1969 | any bytes that are on the wire may arrive |
| Layers.StackStepKeeps | internal/tunnel/runner.go:1699-2180 | every step, write or read, keeps the pipes in agreement with what their ends wrote and with what the readers have |
| Layers.WriteExtends | internal/tunnel/runner.go:1710-1963 | a write adds exactly its bytes to what went into a pipe and takes nothing back |
| Layers.SlipPut | internal/tunnel/runner.go:1937-1963 | Slipstream's Write puts all of its argument into the pipe, or a proper part and the pipe is broken |
| Layers.WsPut | internal/tunnel/runner.go:1710-1727 | so does WebSocket's |
| Layers.FrameOverSlip | internal/tunnel/runner.go:2162-2180 | a mux frame goes over Slipstream whole, or a proper part of it does and the pipe is broken |
| Layers.FrameOverWs | internal/tunnel/runner.go:2162-2180 | the same over WebSocket |
| Layers.FrameOverRaw | internal/tunnel/runner.go:2162-2180 | the same over the connection itself |
| Layers.FrameIsSend | internal/tunnel/runner.go:2162-2180 | such a write is the Send of the model with a possible outcome |
| Layers.DatagramsReachClient | internal/tunnel/runner.go:565-602 | behind the target line the client's relay decodes a prefix of the datagrams sent, whatever the layers and their chunking, and all of them once they are written whole and nothing is left on the way |
| Layers.DatagramsReachServer | internal/tunnel/runner.go:1403-1465 | the replies decode to a prefix of the datagrams the client sent, and to all of them likewise |
| ControlRace.RacingWorkers | internal/tunnel/original_protocol.go:186-230 | a connection accepted after the hello reply, while that control stays, is never read as a hello; it is queued, or closed only for lack of room or at shutdown |
| ControlRace.AcceptedLater | internal/tunnel/original_protocol.go:186-230 | the same for every continuation of every run |
| ControlRace.OneControl | internal/tunnel/original_protocol.go:161-220 | at most one connection is read as a hello, answered, told it is the control or installed, and setControl never refuses |
| ControlRace.QueueAndClear | internal/tunnel/original_protocol.go:177-230 | a worker waits in one place of the queue, and a late clear leaves a newer control alone |
| ControlRace.FirstQueuedFirstTaken | internal/tunnel/original_protocol.go:222-326 | of two workers in the queue, the one behind is never taken before the one in front, in every continuation of a run |
| ControlRace.Handshake | internal/tunnel/original_protocol.go:193-220 | with the lock and no control, a right hello and a written reply make the connection the control; a wrong hello or a lost reply closes it; the lock is free afterwards |
| ControlRace.StepKeepsInv | internal/tunnel/original_protocol.go:161-230 | every step of every goroutine keeps the invariant |
| ControlRace.OriginalServer.FirstLook | internal/tunnel/original_protocol.go:188-191 | the look before the lock: a connection that finds a control is a worker, any other waits for the lock |
| ControlRace.OriginalServer.SecondLook | internal/tunnel/original_protocol.go:193-198 | the look with the lock held: only a connection that finds no control, with nobody else told it is one, is read as a hello |
| ControlRace.OriginalServer.InstallControl | internal/tunnel/original_protocol.go:167-175 | the Install step; in every reachable state the slot is free and the connection becomes the control |
| ControlRace.OriginalServer.DropControl | internal/tunnel/original_protocol.go:177-184 | the Clear step; the connection is the control no longer, and a control that has come since stays |
| ControlRace.OriginalServer.EnqueueWorker | internal/tunnel/original_protocol.go:222-230 | the Enqueue step; queued at the end, or closed when stopped or full |
| WorkerAccounting.WorkersBalance | internal/tunnel/original_protocol.go:386-453 | signals in flight, workers dialled, arriving, being read as a hello, queued, taken, dropped or failed are together PoolSize and the CHANNEL signals written |
| WorkerAccounting.EveryRequestHasAWorker | internal/tunnel/original_protocol.go:296-326 | in every run: as many workers are coming as requests wait if and only if those read as a hello, closed or not dialled are no more than the pool, the cancelled requests and the foreign connections taken; while the control is in place none is read as a hello and a closed one was closed for room or at shutdown |
| WorkerAccounting.WorkersReachQueue | internal/tunnel/original_protocol.go:186-230 | while that control is in place every worker is on its way to the queue, queued or taken, or was closed for lack of room or at shutdown |
| WorkerAccounting.WorkerLost | internal/tunnel/original_protocol.go:186-209 | a run in which the control is cleared, the worker is read as a hello, and the request waits with nothing on its way |
| WorkerAccounting.WorkerClosed | internal/tunnel/original_protocol.go:199-209 | the same run one step on: the worker is closed, nothing is coming and nothing was spare |
| WorkerAccounting.TakenStaysTaken | internal/tunnel/original_protocol.go:296-326 | a taken worker is never in the queue again |
| WorkerAccounting.StepBalances | internal/tunnel/original_protocol.go:186-453 | every step keeps the balance |
| TypedFrames.TypedLawful | internal/tunnel/original_protocol.go:33-55 | typed strings reassemble from any split |
| TypedFrames.TypedLayout | internal/tunnel/original_protocol.go:33-42 | two bytes of length, the one that counts most first, the signal, the value |
| TypedFrames.SignalsUntouched | internal/tunnel/original_protocol.go:44-65 | reading a typed string takes no byte of the signals behind it |
| TypedFrames.WriteFull | internal/tunnel/original_protocol.go:108-120 | the write loop ends for every writer, succeeds exactly when no call fails or takes nothing, and then has sent exactly the frame |
| TypedFrames.WriteTyped | internal/tunnel/original_protocol.go:33-42 | a value over 65535 bytes is refused before anything is written |
| TypedFrames.WriteSignal | internal/tunnel/original_protocol.go:57-59 | a signal goes out as its one byte, or not at all |
| TypedFrames.ReadReplyThenSignals | internal/tunnel/original_protocol.go:44-65 | the reply and then each signal byte are read back exactly |
| Associations.DeleteIsOwn | internal/tunnel/runner.go:1205-1265 | a delete by key takes out the deleter's own entry and no other |
| UdpControl.RemoveIsOwn | internal/tunnel/runner.go:1140-1265 | in every interleaving a source has at most one connection in the table and a late remove takes out its own |
| UdpControl.SourcesApart | internal/tunnel/runner.go:1140-1246 | what a source sent is offered to its connections piece after piece; each takes its piece from the front without a gap and holds at most 512 unread packets |
| UdpControl.AcceptedInOrder | internal/tunnel/runner.go:1140-1186 | no connection is accepted twice, and they come in the order they were made |
| UdpControl.StepKeepsInv | internal/tunnel/runner.go:1140-1265 | every step keeps the invariant |
| UdpControl.UdpControlListener.Lookup | internal/tunnel/runner.go:1151-1171 | known source: its connection; new source: a fresh one stored and queued; accept queue full: nothing changes |
| UdpControl.UdpControlListener.Receive | internal/tunnel/runner.go:1140-1177 | a packet joins its own source's connection, or throws it out when it is full or being closed, and touches no other |
| UdpControl.UdpControlListener.CloseConn | internal/tunnel/runner.go:1205-1265 | a close, first or not, ends with the connection's own entry gone and every other in place |
| UdpControl.UdpControlConn.Push | internal/tunnel/runner.go:1223-1232 | taken at the end of the queue, or refused only when closed or full |
| UdpControl.UdpControlConn.Read | internal/tunnel/runner.go:1234-1246 | bytes come off the front of what is pending; the end only after a close |
| PublicUdp.StoreAndDelete | internal/tunnel/runner.go:1335-1385 | the store after the unlocked lookup never overwrites an association, and a late delete takes out its own |
| PublicUdp.RepliesGoHome | internal/tunnel/runner.go:1344-1385 | replies go only to the source the association was made for, whose packets alone its stream is given, in order and without a gap |
| PublicUdp.PublicUdpListener.Forward | internal/tunnel/runner.go:1338-1384 | a packet goes onto its own source's stream, framed; a new source gets an association on the acquired stream or is dropped; every other source keeps what it had |
| PublicUdp.PublicUdpListener.Drop | internal/tunnel/runner.go:1363-1368 | the end of a reply goroutine takes out its own entry only |
| PublicUdp.Association.NextReply | internal/tunnel/runner.go:1369-1375 | one datagram is taken off the stream and sent to the association's source |
| PublicUdp.StepKeepsInv | internal/tunnel/runner.go:1335-1385 | every step keeps the invariant |
| Mapping.ParseMappings | internal/tunnel/mapping.go:14-106 | succeeds exactly when every item expands and something comes out; the result is the expansions of the items in order |
| Mapping.ExpansionIsConsecutive | internal/tunnel/mapping.go:14-125 | whatever the item, it listens once on each of the consecutive ports a..b within 1..65535 |
| Mapping.ItemParses | internal/tunnel/mapping.go:20-153 | every item written with bare ports means what it says and is refused exactly when a port is out of bounds or a range runs backwards |
| Mapping.HostedOne | internal/tunnel/mapping.go:40-77 | port=host:port goes to that host and port for every host, and is refused exactly when a port is out of bounds |
| Mapping.HostedRange | internal/tunnel/mapping.go:20-38 | a-b:host:port goes to that host and port from every port of the range |
| Mapping.ListenHostDropped | internal/tunnel/mapping.go:64-77 | a host in front of the listening port is dropped |
| Mapping.HostedAlone | internal/tunnel/mapping.go:93-100 | host:port alone listens on that port of every address and goes to the same port at home |
| Mapping.ItemToDial | internal/tunnel/original_protocol.go:67-106 | each of its targets goes over the wire as its port alone and is dialled unchanged as 127.0.0.1:port |
| Mapping.HostKept | internal/tunnel/mapping.go:42-65 | for every range=target item: it goes where its right part says if and only if that part has no host or is the local address as printed |
| Mapping.HostDropped | internal/tunnel/mapping.go:51-58 | 1-2=10.0.0.1:80 goes to 127.0.0.1:80 |
| Mapping.AppendRange | internal/tunnel/mapping.go:32-37 | the loop over a range appends exactly one mapping per port |
| Targets.WireRoundTrip | internal/tunnel/original_protocol.go:67-106 | for every target: it comes back, trimmed, if and only if it splits and is no loopback spelling other than 127.0.0.1 with a plain port |
| Targets.TargetArrives | internal/tunnel/original_protocol.go:33-106 | through the typed frame: it is dialled as given, trimmed, if and only if that holds and what goes on the wire is at most 65535 bytes |
| Targets.LoopbackUndone | internal/tunnel/original_protocol.go:67-106 | every loopback spelling with a plain port is dialled as 127.0.0.1 with that port |
| Targets.LocalhostChanged | internal/tunnel/original_protocol.go:67-106 | localhost:80 is dialled as 127.0.0.1:80 |
| Targets.FourHostsShorten | internal/tunnel/original_protocol.go:100-106 | a target is shortened exactly for the four loopback spellings; any other goes and comes back as it is |
| Targets.SplitUndoesJoin | internal/tunnel/original_protocol.go:67-106 | splitting host and port undoes joining them, with brackets around an IPv6 address |
| Targets.PortBounds | internal/tunnel/original_protocol.go:92-98 | a printed number is a port exactly from 1 to 65535 |
| Targets.BarePortRoundTrip | internal/tunnel/original_protocol.go:67-106 | 127.0.0.1:p survives the wire for every port |
| Text.DecimalRoundTrip | internal/tunnel/mapping.go:127-137 | printing and parsing a decimal number |
| Text.AtoiOfSigned | internal/tunnel/mapping.go:127-137 | a sign in front counts as one |
| ConfigList.LoadFile | internal/cfg/config.go:139-198 | the loop over the scanner's lines with its section, flag and list leaves the fold of the line step over the lines of the text, and fails if and only if one of them is longer than 65535 bytes |
| Scanner.RawLinesOfPrinted | internal/cfg/config.go:141-143 | lines printed with a newline each are the lines found, whatever stands behind them |
| Scanner.LastLine | internal/cfg/config.go:141-143 | a last line without its newline is a line, unless it is empty |
| ConfigList.LineLimit | internal/cfg/config.go:141-198 | a line of more than 65535 bytes fails the text it stands in, any other is one step of the loop |
| ConfigList.LoadTextAppend | internal/cfg/config.go:139-198 | a text behind whole lines loads from where they lead, if they load |
| ConfigList.TextAdds | internal/cfg/config.go:139-198 | whatever the text, loading it only adds to the list, and only items free of comments, newlines and blanks at their ends |
| ConfigList.TakeLine | internal/cfg/config.go:143-197 | one turn of the loop, branch by branch |
| ConfigList.CommentDropped | internal/cfg/config.go:143-149 | what stands behind the first `#` of a line makes no difference |
| ConfigList.SectionLine | internal/cfg/config.go:164-167 | a line in brackets names the section |
| ConfigList.KeyLine | internal/cfg/config.go:168-197 | key = "value" sets that key of the present section, `mapping` too outside [ports] |
| ConfigList.LinesRoundTrip | internal/cfg/config.go:139-198 | a list printed over several lines loads as itself if and only if every item is free of `#` and newlines, bare at its ends and within the line limit, and no item but the last holds a closing bracket |
| ConfigList.OneLineRoundTrip | internal/cfg/config.go:172-195 | a list printed on one line loads as itself if and only if every item is free of `#`, newlines and commas and bare at its ends, and the line is within the limit |
| ConfigList.BracketCutsList | internal/cfg/config.go:151-165 | a list whose first item holds a closing bracket loads as that item alone |
| ConfigList.OpeningItemKeepsComma | internal/cfg/config.go:186-194 | an item on the opening line of a longer list loads with the quote and comma behind it |
| ConfigList.NewlineSplitsItem | internal/cfg/config.go:141-165 | an item with a newline inside loads as two |
| ConfigList.CommaSplitsItem | internal/cfg/config.go:174-186 | a one-line item with a comma loads as two |
| ConfigList.InstallerRoundTrip | installer/backhaul.sh:531-538 | what the installer prints for clean ports, behind any text that loads, loads as those ports and fails exactly when a line is over the limit; the forwarder, which is one line, loads as itself unless it holds a comment or quotes at its ends |
| ConfigList.BothWaysAgree | internal/cfg/config.go:139-198 | both ways of printing a list of clean items load as that list while it fits on one line; a longer one fails on one line and loads from several |

## Left out

- Sockets, dialling, TLS, HTTP, gRPC, KCP, `bridge` and logging: foreign calls; `Conn.ByteConn` stands for the connection under each layer.
- Deadlines, tickers, retry sleeps and request limits: steps that may happen at any time, or nothing; a mux stream's deadlines are stored and never read.
- Races inside the pairs that are one step, but for the one in `PushWindow`: see the assumptions on steps.
- `udpControlListener.Close`: it takes a lock it already holds (`internal/tunnel/runner.go:1193-1206`); only packets and connection closes are modelled.
- Concurrent WebSocket writers: pong and close frames are written without the write lock; the writer is sequential here and the reader takes any valid frames.
- Reading on after a WebSocket close frame: the model ends there, where the code would parse the next frame if called again.
- UDP and DNS control under the multiplexer: packets can be lost there, so the byte-stream contract does not hold.
- SHA-256, nonces and masking keys: any function, any bytes. SHA-1 and base64 of the WebSocket upgrade are not part of this model.
- `setValue` and `parseTransport`: lookup tables; settings other than the list are kept as section, key and value. Text that is not valid UTF-8 is not part of the file's model.
- The retry loop of `simpleMuxHolder.OpenStream` and the heartbeat loop of `monitorControl`: waiting and retrying only.
- Two goroutines writing one stream at once are interleaved chunk by chunk; the order of their bytes is not specified by the source either.
- Goroutines left waiting after their stream is gone, and memory in general.
- MuxRuns.Conservation: asks for at most 2^32 opens by the opener, since ids repeat afterwards.
- ConfigList.InstallerRoundTrip: asks for a forwarder without a newline, since the installer reads it with `read -r` (`installer/backhaul.sh:63-69`).
- PushWindow.SplitRefinesMux: asks that the table still leads to the stream at each push; a stream closed in between whose queue is still open takes one more chunk, which `PushWindow.PushDoes` covers at that end alone.
- PublicUdp.PublicUdpListener.Forward: one packet without other goroutines in between; the interleavings are the steps of the model. Sending the reply packet itself is a foreign call.
- MuxSession.MuxSession.Write: one call without others in between; interleaved calls are the steps of the model.

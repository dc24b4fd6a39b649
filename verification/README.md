# Verified model of the TCP/UDP tunnel

TunnelServer (outside) and TunnelClient (inside) carry UDP datagrams and any number of TCP connections
over one TCP byte stream, framed by an 8-byte header. This project models the two programs in Dafny, down
to the bytes on the tunnel, and proves what the tunnel promises about every run.

`dafny verify dfyconfig.toml` checks everything.

## How it is built

| file | what it holds |
|---|---|
| `Seqs` | subsequences |
| `Protocol` | header, messages, encoding, and the one-shot parser of a byte stream |
| `Reassembly` | the two-state machine on values, its refinement of the parser, and the class with its loop |
| `Sockets` | the system's side of a descriptor, `TCPSocket::send`, `sendTunnelMessage` |
| `ConnectionTable` | the two maps on values, and the class `TCPConnectionManager` |
| `Links`, `Logs` | one direction of one tunnel; what a list of frames says about one connection |
| `Parties`, `ServerModel`, `ClientModel` | each branch of the two dispatch loops as a step on a state with history |
| `ServerInvariant`, `ClientInvariant`, `Growth` | what every branch of one party keeps |
| `Effects` | what each branch and each message must do, by the outcomes of its calls and the state before |
| `World`, `WorldInvariant` | the two parties, the byte streams between them, tunnels that come and go; runs |
| `Inputs` | what the calls of a run returned, told from its steps, and that the histories are exactly that |
| `Transit`, `Losses`, `Agreement` | what becomes of every frame and every byte, and when the two tables agree, over any number of tunnels |
| `Theorems`, `Descriptors` | the other main results over all runs |
| `Necessity` | what every tunnel change inside a frame can lead to |
| `Witness` | runs that show the hypotheses of the main results are needed |
| `Binding`, `Watching` | how the programs' own data represents the model's state; sweep and watch list |
| `ServerDispatch`, `ClientDispatch` | the two dispatch loops and the reconnection loop as imperative classes, proved against the model's steps |
| `Turns` | what one turn of either loop takes in |
| `Refinement` | the loops run side by side are a run, so the main results hold of the loops and of the bytes on their sockets |

The main results, over any interleaving of connections, any chunks read from the tunnel, any outcome of a
system call and any point at which a write fails:

* `Theorems.EndToEndIntegrity`: with one tunnel, what reaches the far socket is a prefix of the bytes that
  the reads of the run returned at the near one, in both directions.
* `Inputs.ReadIsInput`, `Inputs.DatagramsAreInput`, `Inputs.IdsInOrder`: the histories the main results speak
  of are exactly what the calls of the run returned, and the ids are handed out in the order of arrival.
* `Effects.Admits`, `Effects.ServerTable`, `Effects.ServerSends`, `Effects.ServerMessage`,
  `Effects.ClientContinues` and the others there: exactly when a connection enters and leaves a table, which
  frame the tunnel is owed, and when a tunnel is given up.
* `Turns.ServerTurnReads`, `Turns.ClientTurnReads`: a turn reads every ready connection once.
* `Theorems.TableAgreement` and `Theorems.UnsettledConnection`: when everything has been read both sides
  have the same connections, and before that every difference has a frame on its way.
* `Theorems.WireGrammar`: OPEN DATA* CLOSE one way, DATA* CLOSE* the other.
* `Theorems.ReconnectionSafety`, `Descriptors.DescriptorKept`: over any number of tunnels that change at
  frame boundaries, nothing is reordered, no connection gets another's bytes, no id is used twice, and a
  connection keeps its descriptor.
* `Necessity.BoundaryDecides`, `Witness.BoundaryNeeded`, `Reassembly.StaleResidue`: why frame boundaries are
  needed. From every run, a tunnel that changes inside a frame can be continued so that the reader handles a
  frame nobody sent; one that changes at a boundary cannot, as long as later ones do too.
* `Transit.FramesConserved`, `Losses.WhereBytesAre`: over any number of tunnels, every frame written in full
  was handled, was lost with its tunnel or is on the way; every byte read was delivered, dropped, lost,
  refused by the far side or is on the way.
* `Losses.ResumesExactlyWhen`, `Witness.PrefixNeedsOneTunnel`: once everything has been read, a connection
  that both sides have is complete exactly when no byte of it was dropped or lost.
* `Agreement.OneSidedExactlyWhen`, `Witness.TablesDisagree`: over any number of tunnels, a connection is on
  one side only exactly when that side was not told: the other side let go of it without a CLOSE (no tunnel,
  a failed send, or the client quitting), or the CLOSE, or the OPEN, was lost with its tunnel. The branches in
  which a side lets go are named by their guards. An OPEN that is not written in full leaves nothing behind,
  because the server removes the id again.
* `Refinement.JointIsRun`, `Refinement.SocketsAreSafe`: any interleaving of the turns of the two loops is a
  run, and the bytes the system accepted on the sockets are those the main results speak of.
  `Refinement.ServerSideOf` and `Refinement.ClientSideOf`: each program's part of it is what the contracts of
  its own loops describe.
* `Theorems.DatagramIsolation`, `Refinement.DatagramSockets`: datagrams keep boundaries and order, and the
  replies are exactly those due, each to the right receiver.
* `Links.SendReceive`, `Reassembly.ChunkingIndependence`, `Protocol.UniquelyDecodable`: the codec.
* `ConnectionTable.TableInvariant`, `ConnectionTable.IdentifierBound`: the table.

## Assumptions about the surroundings

Calls into the system are parameters: each step says how the calls it makes end, and every outcome is
allowed except as stated here.

* A write that fails is the last on its descriptor (`Sockets.Kernel` marks the descriptor as broken). The
  server keeps a tunnel after a failed TCP_OPEN or TCP_DATA (`src/tunnel_server_dispatch.cc:178-182`,
  `src/tunnel_server_dispatch.cc:294-298`), so this is needed; `Links.FailureMustLast` says exactly when a
  later frame would be read correctly.
* A new descriptor differs from every open one.
* A UDP payload has at most 65507 bytes (RFC 768, and section 3.1 of RFC 791), so that the 16-bit length
  parameter of `sendTunnelMessage` loses nothing.
* One server process accepts at most 2^32 - 1 outside connections (`ConnectionTable.IdentifierBound` shows
  the bound is the right one), and a restarted server is a new run.
* The server accepts tunnels in the order in which the client connected them.

## Where the code and its descriptions differ

* The client's loop ends with the comment that remaining data in the reassembly machine is cleared, but only
  a log line follows (`src/tunnel_client_dispatch.cc:392-394`). The model follows the code;
  `Witness.BoundaryNeeded` shows the consequence, and `Necessity.BoundaryDecides` that it can follow from
  every change of tunnel inside a frame.
* The repository's README says that connections resume transparently after a reconnection, that the operating
  system's buffers hold the data meanwhile, and that only data in flight is lost (README.md:228-248). The
  server reads and discards data while there is no tunnel (`src/tunnel_server_dispatch.cc:281-300`).
  `Witness.PrefixNeedsOneTunnel` is such a run. `Losses.ResumesExactlyWhen` says of which connections the
  promise is kept once everything has been read: those of which no byte was dropped when read
  (`Losses.Dropped`) or lost unread with a tunnel (`Transit.DownLost`, `Transit.UpLost`). All three are
  computed from the steps of the run.
* A closed connection is removed by the server without telling the client when there is no tunnel
  (`src/tunnel_server_dispatch.cc:256-261`), so the two tables need not agree after a reconnection:
  `Witness.TablesDisagree` is such a run, and `Agreement.OneSidedExactlyWhen` gives the exact condition.

## Model

The branches of the loops are the functions `ServerModel.Step`, `ServerModel.Handle`, `ClientModel.Step` and
`ClientModel.Handle`. They carry no contract of their own: the rows of `Effects` and `Inputs`, and those on the
invariants, the main results and the two dispatch classes, say what they do.

| member | source | states |
|---|---|---|
| Protocol.HeaderRoundTrip | src/tunnel_protocol.cc:7-25 | parsing a created header gives back every id, length and type code, whatever follows it |
| Protocol.HeaderInverse | src/tunnel_protocol.cc:7-25 | creating a header from parsed fields gives back the eight bytes |
| Protocol.ValueOfBigEndian | src/tunnel_protocol.cc:12-14 | the bytes of a number in network order stand for that number, for every width |
| Protocol.BigEndianOfValue | src/tunnel_protocol.cc:22-24 | every byte string is the network order of the number it stands for |
| Protocol.HeaderBytes | src/tunnel_protocol.cc:7-15 | the eight bytes one by one, each field with its most significant byte first |
| Protocol.FrameBytes | src/tunnel_protocol.h:7-32 | a frame byte by byte: id, length, the codes 1 to 4, and the payload as it is |
| Protocol.TypeOf | src/tunnel_protocol.cc:27-31 | the four valid codes are those of the four message types |
| Protocol.FirstFrame | src/tunnel_send_message.cc:16-37 | a frame is recognised at the front of a stream from its own bytes |
| Protocol.FrameIsEncoding | src/tunnel_message_reconstructor.cc:20-104 | what is recognised as a message is exactly the encoding of that message |
| Protocol.ParseConserves | src/tunnel_message_reconstructor.cc:18-113 | the messages found, encoded again, and the leftover are the stream |
| Protocol.ParseMaximal | src/tunnel_message_reconstructor.cc:18-113 | the leftover holds no complete message, and is marked bad exactly when it starts with an invalid header |
| Protocol.ParseConcat | src/tunnel_message_reconstructor.cc:18-113 | a stream may be parsed in two parts, the leftover of the first carried over; a bad header hides the second part |
| Protocol.RoundTrip | src/tunnel_send_message.cc:3-40 | an encoded message list is read back, whatever follows it |
| Protocol.CutFrameIncomplete | src/tunnel_send_message.cc:21-37 | a frame cut anywhere is neither a message nor an error |
| Protocol.ReceivedIsPrefix | src/tunnel_message_reconstructor.cc:18-113 | every prefix of a sender's stream, a cut last frame included, parses to a prefix of the messages sent in full |
| Protocol.UniquelyDecodable | src/tunnel_send_message.cc:16-37 | one list's encoding is a prefix of another's exactly when the list is |
| Protocol.LeftoverMatters | src/tunnel_message_reconstructor.cc:18-113 | a frame behind a leftover is read as sent, whatever it is, exactly when nothing is left over |
| Reassembly.Drain | src/tunnel_message_reconstructor.cc:18-113 | the loop stops only when the buffer holds neither a header nor the pending payload |
| Reassembly.DrainRefinesParse | src/tunnel_message_reconstructor.cc:18-113 | the machine queues what the one-shot parser finds in the consumed header and the buffer |
| Reassembly.CollectRefinesParse | src/tunnel_message_reconstructor.cc:7-121 | one call queues what the parser finds in the residue and the chunk |
| Reassembly.DrainedResidueIncomplete | src/tunnel_message_reconstructor.h:22-43 | between calls the machine holds a frame cut short and at most 65534 bytes of buffer |
| Reassembly.ChunkingIndependence | src/tunnel_message_reconstructor.cc:7-113 | without an invalid header, messages and residue depend on the concatenation of the chunks alone |
| Reassembly.FirstBadChunk | src/tunnel_message_reconstructor.cc:40-46 | the call that completes the first invalid header still queues what the parser finds |
| Reassembly.GoodStream | src/tunnel_message_reconstructor.cc:7-113 | a stream without an invalid header is never refused, however it is cut |
| Reassembly.ByteConservation | src/tunnel_message_reconstructor.cc:18-113 | everything fed is the queued messages, encoded, then the consumed header, then the buffer |
| Reassembly.RecoveryAfterBadHeader | src/tunnel_message_reconstructor.cc:40-46 | after refusing a header the machine behaves like a fresh one for ever; the call's earlier messages are those of the parser |
| Reassembly.AlikeForever | src/tunnel_message_reconstructor.cc:61-73 | the last id and type are dead while a header is awaited |
| Reassembly.StaleResidue | src/tunnel_client_dispatch.cc:392-394 | the frames of a new tunnel are read correctly exactly when nothing of the old tunnel is left over |
| Reassembly.TunnelMessageReconstructor.constructor | src/tunnel_message_reconstructor.h:30-43 | the initial fields |
| Reassembly.TunnelMessageReconstructor.CollectFromTunnel | src/tunnel_message_reconstructor.cc:7-121 | the loop over the fields computes the machine's step, appends its messages to the queue, and terminates |
| Reassembly.TunnelMessageReconstructor.PopMessage | src/tunnel_message_reconstructor.h:56-56 | the front message goes, the others stay in order |
| Sockets.Kernel.Write | src/tcp.cc:229-229 | one write: interrupted, short, refused or failed |
| Sockets.Kernel.Open | src/tcp.cc:25-25 | a new descriptor carries nothing and is not broken; it was not open before |
| Sockets.Kernel.Close | src/tcp.cc:171-180 | the descriptor is no longer open and can be had again |
| Sockets.Kernel.Send | src/tcp.cc:219-265 | for every schedule: the whole buffer appended and its length returned, or the strict prefix the schedule allows and -1; how many attempts were used; terminates |
| Sockets.Kernel.SendTunnelMessage | src/tunnel_send_message.cc:3-40 | true and the whole frame appended, or false and a strict prefix, the one the schedule allows |
| Sockets.DatagramSocket.Send | src/udp.cc:115-134 | the datagram, with its destination, is handed over behind the earlier ones |
| Links.TransmitBytes | src/tunnel_send_message.cc:20-39 | a send appends what was accepted; after a failed send nothing more is appended |
| Links.TransmitAllFrames | src/tunnel_send_message.cc:20-39 | any sequence of sends leaves the frames sent in full before the first failure |
| Links.SendReceive | src/tunnel_message_reconstructor.cc:18-113 | whatever is sent, wherever it fails and however it is cut, exactly the messages sent in full are queued, in order |
| Links.FailureMustLast | src/tunnel_server_dispatch.cc:294-298 | a frame sent behind a failed one would be read correctly exactly when the failed one left no bytes |
| ConnectionTable.AddKeepsBijection | src/tcp_connection_manager.cc:12-19 | adding a new descriptor keeps the maps inverse exactly when the id is new |
| ConnectionTable.RemoveKeepsBijection | src/tcp_connection_manager.cc:21-33 | removal keeps the maps inverse |
| ConnectionTable.SameSize | src/tcp_connection_manager.h:28-29 | inverse maps are of equal size |
| ConnectionTable.TableInvariant | src/tcp_connection_manager.cc:12-33 | over every sequence of adds, removals and descriptor reuse the maps are inverse and every descriptor in the table is open and owned once |
| ConnectionTable.IdentifierBound | src/tcp_connection_manager.cc:3-10 | a number of ids is distinct and avoids 0 exactly when it is below 2^32 |
| ConnectionTable.TCPConnectionManager.constructor | src/tcp_connection_manager.cc:3-5 | empty maps and counter 1 |
| ConnectionTable.TCPConnectionManager.AllocateConnId | src/tcp_connection_manager.cc:7-10 | the counter's value, and the counter moves on modulo 2^32 |
| ConnectionTable.TCPConnectionManager.AddConnection | src/tcp_connection_manager.cc:12-19 | the new maps; the socket is closed when the id was taken |
| ConnectionTable.TCPConnectionManager.RemoveConnection | src/tcp_connection_manager.cc:21-33 | both entries go and the descriptor is closed |
| ConnectionTable.TCPConnectionManager.GetAllConnIds | src/tcp_connection_manager.cc:47-55 | the ids, each once, in ascending order |
| ConnectionTable.TCPConnectionManager.GetAllSockets | src/tcp_connection_manager.cc:57-68 | the descriptors of the valid connections, each once |
| Logs.SubseqLog | src/tunnel_client_dispatch.cc:182-257 | what a receiver that missed frames knows of a connection: payload a subsequence, no OPEN after anything else |
| ServerInvariant.StepInv | src/tunnel_server_dispatch.cc:110-329 | every branch that does not read the tunnel keeps the server's invariant |
| ServerInvariant.HandleInv | src/tunnel_server_dispatch.cc:348-429 | handling any message a client can send keeps the server's invariant |
| ServerInvariant.InitInv | src/tunnel_server_dispatch.cc:38-58 | the invariant holds at the start |
| ClientInvariant.StepInv | src/tunnel_client_dispatch.cc:271-382 | every branch that does not read the tunnel keeps the client's invariant |
| ClientInvariant.HandleInv | src/tunnel_client_dispatch.cc:143-266 | handling a message keeps the client's invariant when an OPEN comes first for its id |
| ClientInvariant.InitInv | src/tunnel_client.cc:88-92 | the invariant holds at the start |
| Effects.ServerSends | src/tunnel_server_dispatch.cc:147-302 | a branch offers the tunnel exactly the frame owed: OPEN for a new connection, the datagram, the data, CLOSE for an end; whole or the part taken |
| Effects.ServerTable | src/tunnel_server_dispatch.cc:147-302 | a connection enters exactly when there is a tunnel that takes its OPEN, and leaves exactly when the outside closed or failed or its data is not taken |
| Effects.ServerHolds | src/tunnel_server_dispatch.cc:110-145 | there is a tunnel from an accept until it is lost or does not take a datagram |
| Effects.Admits | src/tunnel_server_dispatch.cc:147-190 | an outside connection is accepted exactly when there is a tunnel that takes its OPEN; then under the next id, and that OPEN is all that was sent |
| Effects.ServerMessage | src/tunnel_server_dispatch.cc:348-426 | data reaches its own socket and no other; a CLOSE, or data that is refused, ends the connection, the latter with a CLOSE owed |
| Effects.ClientSends | src/tunnel_client_dispatch.cc:271-368 | a branch offers the tunnel exactly the frame owed |
| Effects.ClientTable | src/tunnel_client_dispatch.cc:323-382 | no branch enters a connection; one leaves exactly when the destination closed or failed, or the user has quit |
| Effects.ClientContinues | src/tunnel_client_dispatch.cc:347-366 | the loop ends exactly when the tunnel is lost, the user quits, or a datagram or data read from a connection is not taken by the tunnel |
| Effects.ClientMessage | src/tunnel_client_dispatch.cc:143-266 | an OPEN enters exactly when its id is new and its connect succeeds; CLOSE answers it otherwise, and data that is refused or for an unknown id; datagrams are passed on |
| Growth.ServerStepExtends | src/tunnel_server_dispatch.cc:147-302 | no branch takes back bytes from the tunnel, and history gains exactly the frames the tunnel gains |
| Growth.ServerHandleExtends | src/tunnel_server_dispatch.cc:348-429 | the same for handling a message, which also leaves tunnel and session alone and is recorded once |
| Growth.ClientStepExtends | src/tunnel_client_dispatch.cc:271-368 | the same for the client |
| Growth.ClientHandleExtends | src/tunnel_client_dispatch.cc:143-266 | the same for handling a message |
| WorldInvariant.SyncPrefix | src/tunnel_server_dispatch.cc:335-340 | what a reader has handled of a tunnel is a prefix of the frames written to it, and all of them once every byte is read |
| WorldInvariant.SyncReceives | src/tunnel_client_dispatch.cc:130-134 | one more chunk of any size keeps reader and writer in step |
| WorldInvariant.ApplyInv | src/tunnel_server_dispatch.cc:60-433 | every step of either program, at a frame boundary when it changes the tunnel, keeps the joint invariant |
| WorldInvariant.RunInv | src/tunnel_server_dispatch.cc:60-433 | the joint invariant holds at every point of every run with frame-boundary changes |
| WorldInvariant.HistoriesAgree | src/tunnel_client.cc:92-134 | over all tunnels, each side has handled a subsequence of what the other sent in full |
| WorldInvariant.OneTunnelIsBoundaryRun | src/tunnel_client.cc:92-97 | with one tunnel the boundary hypothesis holds by itself |
| Inputs.ReadIsInput | src/tunnel_server_dispatch.cc:247-292 | over every run, what is recorded as read of a connection is the bytes its reads returned while it was in the table, in order, on both sides |
| Inputs.DatagramsAreInput | src/tunnel_server_dispatch.cc:192-238 | over every run, the datagrams remembered are those received, those passed on are the non-empty ones received with a tunnel, and the replies are exactly those due |
| Inputs.IdsInOrder | src/tunnel_server_dispatch.cc:156-165 | over every run, the ids are 1, 2, 3, one for each connection that came while there was a tunnel |
| Theorems.ServerStageMeans | src/tunnel_server_dispatch.cc:156-183 | the stage automaton is OPEN DATA* CLOSE, said of the sequence of types |
| Theorems.ClientReplyMeans | src/tunnel_client_dispatch.cc:223-250 | the reply automaton is DATA* CLOSE*, said of the sequence of types |
| Theorems.EndToEndIntegrity | src/tunnel_client_dispatch.cc:223-250 | with one tunnel, delivered is a prefix of the bytes the reads of the run returned, both ways; nothing is missing of a connection in the table; equality once all is read |
| Theorems.TableAgreement | src/tunnel_client_dispatch.cc:182-257 | with one tunnel and no failed write, equal tables once all is read |
| Theorems.UnsettledConnection | src/tunnel_client_dispatch.cc:323-346 | an id on one side only has its OPEN or a CLOSE on the way |
| Theorems.WireGrammar | src/tunnel_server_dispatch.cc:251-300 | the order of frames of each connection in both directions, over all tunnels; nothing from the client before it handled a frame of the id |
| Agreement.DataAfterOpen | src/tunnel_client_dispatch.cc:313-368 | over all tunnels, a connection's data comes from the client only after it handled that connection's OPEN |
| Theorems.ReconnectionSafety | src/tunnel_client_dispatch.cc:383-390 | over all tunnels, delivered is a subsequence of the bytes the reads of the run returned for the same id; no id is entered twice; no descriptor serves two |
| Theorems.DatagramIsolation | src/tunnel_server_dispatch.cc:192-238 | datagrams delivered are those received with a tunnel, in order and whole; the replies are exactly the non-empty datagrams handled since a non-empty one came in, each to the sender of the latest |
| Descriptors.DescriptorKept | src/tunnel_server_dispatch.cc:110-145 | a connection in the table at two points of a run has the same descriptor at both |
| Losses.ReadIsSentOrDropped | src/tunnel_server_dispatch.cc:281-300 | over every run, bytes read are bytes sent plus bytes dropped |
| Losses.SentUnlessDropped | src/tunnel_server_dispatch.cc:281-300 | at its reader: everything read was sent, in order, exactly when no read dropped data |
| Losses.WhereBytesAre | src/tunnel_server_dispatch.cc:281-300 | over all tunnels and both ways, bytes read are bytes delivered, dropped, lost with a tunnel, refused by the far side, and on the way; none is refused of a connection in the table |
| Losses.ResumesExactlyWhen | src/tunnel_client_dispatch.cc:383-390 | once everything has been read, a connection both sides have is complete, each way, exactly when no byte of it was dropped or lost |
| Losses.ServerRefuses | src/tunnel_server_dispatch.cc:383-407 | a data message for an unknown id is refused whole, otherwise the part its socket does not take |
| Losses.ClientRefuses | src/tunnel_client_dispatch.cc:223-250 | the same for the client |
| Losses.HandledIsDeliveredOrRefused | src/tunnel_server_dispatch.cc:383-407 | over every run, bytes handled are bytes written to the socket plus those refused step by step |
| Transit.Progress | src/tunnel_client.cc:92-134 | no step takes back a frame; it keeps the tunnels, or the server accepts the next, or the client connects one |
| Transit.StepSettles | src/tunnel_server_dispatch.cc:110-145 | what a step adds to the frames lost is what was sent on tunnels given up and not handled |
| Transit.FramesConserved | src/tunnel_client.cc:92-134 | over all tunnels and both ways, the frames sent are those handled, those lost and those on the way, each once |
| Agreement.ServerStepLetsGo | src/tunnel_server_dispatch.cc:251-300 | a branch of the server loses a connection without a CLOSE exactly when the outside closed or failed and there is no tunnel or the send fails, or data read could not be sent |
| Agreement.ServerMessageLetsGo | src/tunnel_server_dispatch.cc:383-407 | handling a message does so exactly when the socket refuses some of its data and the tunnel the CLOSE |
| Agreement.ClientStepLetsGo | src/tunnel_client_dispatch.cc:323-382 | a branch of the client does so exactly when the user has quit, or the destination closed or failed and the tunnel refuses the CLOSE |
| Agreement.ClientMessageLetsGo | src/tunnel_client_dispatch.cc:182-250 | handling a message does so exactly when data is refused, or the connection of an OPEN, and the tunnel refuses the CLOSE |
| Agreement.SideExplained | src/tunnel_server_dispatch.cc:256-261 | a step keeps it that a side has a connection exactly when it is open by the frames that side knows, unless the side let go of it silently |
| Agreement.RunExplained | src/tunnel_client_dispatch.cc:323-346 | so at every point of every run, on both sides |
| Agreement.OneSidedExactlyWhen | src/tunnel_server_dispatch.cc:251-280 | over all tunnels, once everything has been read: on one side only exactly when that side has it and the other let go of it without a CLOSE (no tunnel or a failed send; for the client also quitting), or its OPEN or CLOSE was lost with a tunnel |
| Losses.ServerStepMissing | src/tunnel_server_dispatch.cc:241-302 | a read is dropped exactly when there is no tunnel or the send fails, and whole |
| Losses.ClientStepMissing | src/tunnel_client_dispatch.cc:347-366 | a read is dropped exactly when the send fails, and whole |
| Losses.ServerHandleMissing | src/tunnel_server_dispatch.cc:348-429 | handling a message loses nothing that was read |
| Losses.ClientHandleMissing | src/tunnel_client_dispatch.cc:143-266 | the same for the client |
| Necessity.MisreadFollows | src/tunnel_message_reconstructor.cc:18-113 | a reader in the middle of any frame, in either direction, handles a frame that was never sent after one or two datagrams |
| Necessity.BoundaryDecides | src/tunnel_client_dispatch.cc:392-394 | from every run: after a tunnel change with nothing left over only frames that were sent are handled; after one with something left over, some continuation handles one that was not |
| Witness.BoundaryNeeded | src/tunnel_client_dispatch.cc:29-29 | a run in which a torn frame makes a byte nobody sent on a connection reach its socket |
| Witness.PrefixNeedsOneTunnel | src/tunnel_server_dispatch.cc:281-300 | a frame-boundary run in which data read without a tunnel is missing |
| Witness.TablesDisagree | src/tunnel_server_dispatch.cc:256-261 | a frame-boundary run, everything read and no write failed, after which only the client has the connection |
| Binding.Sends | src/tunnel_send_message.cc:3-40 | a send does to the descriptors what the model's send does to the link |
| Binding.Delivers | src/tunnel_server_dispatch.cc:388-402 | a send on a connection's socket appends to that connection's bytes and to no other's; the descriptor carries exactly what was delivered for its id |
| Binding.Removes | src/tcp_connection_manager.cc:21-33 | a removal closes one descriptor and leaves the rest as they represent the model |
| Binding.Adds | src/tcp_connection_manager.cc:12-19 | an entry with a new id and a new descriptor |
| Binding.Opens | src/tcp.cc:18-47 | a new descriptor is in no use, and nothing else changes |
| Binding.Installs | src/tunnel_server_dispatch.cc:128-129 | the descriptor becomes the tunnel, with nothing written to it |
| Binding.Drops | src/tunnel_server_dispatch.cc:225-230 | the tunnel's descriptor is closed, and no connection's |
| Watching.PendingStays | src/tunnel_server_dispatch.cc:241-245 | a sweep that removes the entry it visits leaves the later ones where they were |
| ServerDispatch.TunnelServer.constructor | src/tunnel_server_dispatch.cc:30-58 | the loop's data represent the initial model |
| ServerDispatch.TunnelServer.Watched | src/tunnel_server_dispatch.cc:62-81 | the fixed descriptors, the tunnel's iff there is one, the connections', none twice |
| ServerDispatch.TunnelServer.SendFrame | src/tunnel_send_message.cc:3-40 | the model's send of what the schedule lets the tunnel take, and success exactly when no write to this tunnel failed |
| ServerDispatch.TunnelServer.RemoveConnection | src/tcp_connection_manager.cc:21-33 | the model's removal |
| ServerDispatch.TunnelServer.DropTunnel | src/tunnel_server_dispatch.cc:225-230 | the model's loss of the tunnel; its descriptor is unwatched and closed, and no other |
| ServerDispatch.TunnelServer.Install | src/tunnel_server_dispatch.cc:128-129 | the new tunnel is watched |
| ServerDispatch.TunnelServer.Enter | src/tunnel_server_dispatch.cc:158-165 | the next id, which no connection has, with the new descriptor |
| ServerDispatch.TunnelServer.Deliver | src/tunnel_server_dispatch.cc:388-389 | what the schedule lets the socket take of the payload is appended to it and to nothing else; negative exactly when it is not all |
| ServerDispatch.TunnelServer.Usable | src/tunnel_server_dispatch.cc:243-245 | a socket exactly for the ids in the table, and the right one |
| ServerDispatch.TunnelServer.AcceptTunnel | src/tunnel_server_dispatch.cc:110-145 | the model's tunnel change; the new descriptor is the tunnel and watched, the old one unwatched and closed |
| ServerDispatch.TunnelServer.AcceptOutside | src/tunnel_server_dispatch.cc:147-190 | refused and closed without a tunnel, else entered and announced, and removed and closed when the tunnel does not take the OPEN |
| ServerDispatch.TunnelServer.OutsideUdp | src/tunnel_server_dispatch.cc:192-238 | the model's datagram step, with the 16-bit length; the tunnel is given up when the send fails |
| ServerDispatch.TunnelServer.OutsideRead | src/tunnel_server_dispatch.cc:247-301 | the model's step for data, end of stream, error and no data |
| ServerDispatch.TunnelServer.Visit | src/tunnel_server_dispatch.cc:241-302 | one connection is read if its descriptor is ready, and left alone otherwise |
| ServerDispatch.TunnelServer.Sweep | src/tunnel_server_dispatch.cc:241-302 | every connection in the table at the start is visited once, in order, and no other |
| ServerDispatch.TunnelServer.HandleMessage | src/tunnel_server_dispatch.cc:348-426 | the model's handling of one message; data that the socket takes is on its descriptor whole and the connection stays |
| ServerDispatch.TunnelServer.FromTunnel | src/tunnel_server_dispatch.cc:304-432 | closed and failed tunnels are dropped; of a chunk all completed messages are handled in order and the queue is empty again |
| ServerDispatch.TunnelServer.OneTurn | src/tunnel_server_dispatch.cc:110-432 | the branches of one turn in order |
| ServerDispatch.TunnelServer.NextRound | src/tunnel_server_dispatch.cc:62-432 | the watched descriptors are distinct whenever select is called, and a turn follows |
| ServerDispatch.TunnelServer.DispatchLoop | src/tunnel_server_dispatch.cc:60-433 | from start to end the model goes through the turns reported until the user quits or select fails; only turns that bring an outside connection use up ids |
| ServerDispatch.PossibleExactly | src/tunnel_server_dispatch.cc:110-158 | a report is taken as it is, apart from an accept that returned a descriptor in use |
| ServerDispatch.WorkedExactly | src/tunnel_server_dispatch.cc:60-108 | every report up to and including the one in which the user quits is worked off, and none after select failed |
| ClientDispatch.TunnelClient.constructor | src/tunnel_client_dispatch.cc:29-51 | the data represent the initial model |
| ClientDispatch.TunnelClient.Watched | src/tunnel_client_dispatch.cc:66-84 | stdin, tunnel, UDP socket and the connections, none twice |
| ClientDispatch.TunnelClient.Connect | src/tunnel_client.cc:94-118 | the model's new session |
| ClientDispatch.TunnelClient.Disconnect | src/tunnel_client.cc:92-134 | the tunnel is closed and no other descriptor, and everything else kept |
| ClientDispatch.TunnelClient.Quit | src/tunnel_client_dispatch.cc:101-110 | the model's step for q |
| ClientDispatch.TunnelClient.SendFrame | src/tunnel_send_message.cc:3-40 | the model's send of what the schedule lets the tunnel take, and success exactly when no write to this tunnel failed |
| ClientDispatch.TunnelClient.Enter | src/tcp_connection_manager.cc:12-19 | an entry for an id the table does not have |
| ClientDispatch.TunnelClient.Deliver | src/tunnel_client_dispatch.cc:228-229 | what the schedule lets the socket take of the payload is appended to it and to nothing else; negative exactly when it is not all |
| ClientDispatch.TunnelClient.DestinationUdp | src/tunnel_client_dispatch.cc:271-309 | the model's step for a datagram from the destination |
| ClientDispatch.TunnelClient.DestinationRead | src/tunnel_client_dispatch.cc:319-367 | the model's step for data, end of stream, error and no data; stops the sweep exactly when data could not be passed on, and then the loop ends |
| ClientDispatch.TunnelClient.Sweep | src/tunnel_client_dispatch.cc:313-368 | every connection once, in order, up to the first failed send, which ends the loop |
| ClientDispatch.TunnelClient.HandleOpen | src/tunnel_client_dispatch.cc:182-221 | known id: nothing; connected: entered; otherwise a CLOSE back |
| ClientDispatch.TunnelClient.HandleData | src/tunnel_client_dispatch.cc:223-250 | to the socket, whole when it takes all; a failed send removes the connection and answers CLOSE; unknown id: CLOSE |
| ClientDispatch.TunnelClient.HandleMessage | src/tunnel_client_dispatch.cc:143-266 | the model's handling of one message |
| ClientDispatch.TunnelClient.FromTunnel | src/tunnel_client_dispatch.cc:112-269 | closed and failed tunnels end the loop; of a chunk all completed messages are handled in order, each OPEN with its own connect when that returned a descriptor not used before |
| ClientDispatch.TunnelClient.CloseAll | src/tunnel_client_dispatch.cc:376-381 | removing every id of a snapshot leaves the table empty |
| ClientDispatch.TunnelClient.OneTurn | src/tunnel_client_dispatch.cc:101-368 | the branches of one turn in order |
| ClientDispatch.TunnelClient.LeaveLoop | src/tunnel_client_dispatch.cc:371-397 | after q both maps are empty; otherwise every connection is kept |
| ClientDispatch.TunnelClient.DispatchLoop | src/tunnel_client_dispatch.cc:64-369 | the model goes through the turns until one ends the loop |
| ClientDispatch.TunnelClient.RunSession | src/tunnel_client.cc:94-133 | one tunnel from connect to close |
| ClientDispatch.TunnelClient.ReconnectLoop | src/tunnel_client.cc:88-134 | one session after another, table and reassembly machine carried over, until the user quits |
| Turns.ServerTurnReads | src/tunnel_server_dispatch.cc:241-302 | a turn reads from every connection in the table whose descriptor is ready exactly what there is to be had, and from no other |
| Turns.ServerTurnTakes | src/tunnel_server_dispatch.cc:110-432 | a new tunnel is a new session, a datagram is remembered, a new connection gets an id if there is a tunnel, a closed or failed tunnel is given up, all messages of a chunk are handled in order |
| Turns.ClientTurnReads | src/tunnel_client_dispatch.cc:313-368 | the same for the client, up to the connection whose data could not be passed on; from all when the loop goes on |
| Turns.ClientTurnTakes | src/tunnel_client_dispatch.cc:101-309 | the loop goes on only without q and with the tunnel intact, the datagram is recorded, all messages of a chunk are handled in order |
| Refinement.ServerTurnRefines | src/tunnel_server_dispatch.cc:60-433 | a turn of the server's loop is a stretch of a run |
| Refinement.ClientTurnRefines | src/tunnel_client_dispatch.cc:64-369 | a turn of the client's loop is a stretch of a run, also when the user quits in it |
| World.Continues | src/tunnel_client.cc:92-134 | a stretch that starts where a run has led continues that run |
| Refinement.JointIsRun | src/tunnel_client.cc:88-134 | any interleaving of rounds of the server's loop, rounds of the client's loop and the client's sessions is a run that leads where the programs are |
| Refinement.ServerSideOf | src/tunnel_server_dispatch.cc:60-433 | the server's part of any interleaving is one run of its dispatch loop as DispatchLoop describes it, and leads where the server is |
| Refinement.ClientSideOf | src/tunnel_client.cc:88-134 | the client's part is sessions as ReconnectLoop describes them, and they lead where the client is |
| Refinement.OutsideSocket | src/tunnel_server_dispatch.cc:388-402 | at a point of a run, an outside connection's descriptor carries exactly what was delivered for its id |
| Refinement.DestinationSocket | src/tunnel_client_dispatch.cc:228-241 | the same for a connection to the destination |
| Refinement.SocketsAreSafe | src/tunnel_client_dispatch.cc:223-250 | the bytes on a socket at one end are a subsequence of those the reads at the other returned, and with one tunnel a prefix, after any turns of the two loops |
| Refinement.DatagramSockets | src/tunnel_server_dispatch.cc:348-361 | the datagrams on the two UDP sockets: among those received from outside with a tunnel, and exactly the replies due, each with its receiver |
| Refinement.TablesOfLoops | src/tunnel_client_dispatch.cc:383-390 | the exact condition for a connection on one side only, for the tables of the two loops |

## Left out

- Socket creation, options, `select`, `getaddrinfo` and `SockAddr`: foreign calls; their outcomes are parameters, an address is a number, and a socket is its descriptor.
- ConnectionTable.TCPConnectionManager.AddConnection: a socket is its descriptor here, so a null socket pointer and an invalid socket are one case, `None`.
- Sockets.Kernel.Write: does not model which error code the system gives beyond the three classes `send` tells apart.
- ClientDispatch.TunnelClient.FromTunnel: for a connect that returns a descriptor open at the start of the turn, or returned earlier in it, its contract also allows a failure, as whether it was closed in between is not part of it (HandleOpen states it exactly).
- `markInvalid` and `getConnId`: no dispatcher calls them; every connection in the table is valid, and GetAllSockets looks at the flag all the same.
- The branches for a payload longer than 65535 bytes: the 16-bit length cannot exceed it, so they cannot be taken.
- Sockets.DatagramSocket.Send: does not model a failing `sendto` or the refusal of a null buffer; a datagram counts as handed over when the UDP socket's send is called, and an empty one, which may be refused there, is never sent by the server.
- Reading the tunnel while it is blocking, latency, throughput, keepalive and SIGPIPE: outside the code's logic.
- The times and number of connection attempts (`src/tunnel_client.cc:24-61`), command lines, logging and the verbose flag.
- `UDPPacket` and the test and streaming programs: used by neither dispatcher.
- Necessity.BoundaryDecides: a server that accepts a tunnel inside a frame from a client that has been told to quit is not covered, as no new frame can come.
- Server restart and wrap-around of ids inside runs: excluded by assumption; the counter itself does wrap in ConnectionTable.

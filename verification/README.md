# Models and proofs for msg801

msg801 has two halves. The *tunnel* pushes TCP streams through a chain of processors (`identity`, `cfb`,
`cfb_nonce`, `padding`); an entry node encodes and a `--reverse` exit node decodes. The *relay* carries many
client sessions over two persistent connections that meet in a matcher: a visitor (B) accepts clients, a
matcher (A) pairs nodes, a provider (C) dials the target. This project models both and proves what they are
for. `dafny verify dfyconfig.toml` checks everything.

## The tunnel

- Pure machines for the two halves of every processor (`Cipher`, `Padding`, `Processor`), chains of them
  (`Chain`, `Builder`), and classes with loops that are proved equal to those machines
  (`ProcessorObjects`, `ProcessorChainObject`). The keyed hash and the digest are arbitrary functions with
  the right result lengths; random draws are arbitrary sequences.
- `TwoHop` puts an entry chain, two byte streams and an exit chain together. An event is a read of any size at
  any place. **`TwoHop.TwoHopCorrect`**: no call ever throws, every side has been given a prefix of what the
  other side took in, and all of it when the stream between them is empty.
- `Tunnel` interleaves the two read loops of one connection at every suspension, `TunnelSession` is the
  session object. **`Tunnel.GracefulDelivery`** and **`Tunnel.GracefulReturn`**: at the client's end of file,
  what was written makes the exit node give out exactly what the client sent, and the same from the service
  back to the client.

The cipher is a byte feedback scheme of the repository's own, not the CFB mode of section 6.3 of
NIST SP 800-38A; it is modelled as the code has it, with 8-bit wrapping addition and a wrapping `size_t` offset.

## The relay

- `RelayCodec` has the frames and their bytes.
- `Matcher` is the registration and pumping of all pairs as one machine; `MatcherProofs` and
  `MatcherTheorems` prove what it keeps; `MatcherServer` has the code's own form.
- `RelaySession` is one session: the visitor's and the provider's record of one uuid, their coroutines as
  program counters, the frames in flight, failing and half-failing writes, stopping nodes.
  `RelayProofs` and `RelayTheorems` prove conservation, prefix safety and delivery over every run.
  `RelayWindow` gives the exact conditions of delivery where the code can miss it, `RelayEndings` what becomes of
  tables, sockets and links on every refusal, close, error and stop.
- `RelaySystem` is the whole relay with any number of sessions over four FIFO links that may break.
  **`RelaySystem.Projection`**: to each uuid, a run of the system is a run of its own session machine, so
  all session theorems hold for each of many sessions. `RelayWitness` has a run in which they are not apart.
- `RelayJoint` puts the pumps of `Matcher` between the nodes. **`RelayJoint.Refines`**: a run of both is a run of
  the matcher alone and, to the nodes, a run of `RelaySystem` alone, so isolation and delivery hold end to end.
- `RelayRealize` is the converse. **`RelayRealize.Realizes`**: every session run without an error at the provider or a
  stopped node happens, with the same records, in a run of the whole relay.
- `VisitorNode` and `ProviderNode` are the session tables and the objects in them, method by method equal to
  the steps of `RelaySession`.

Modelling assumptions: `aconn_write` appends one whole frame to the link (lib/src/relay.cpp:172-174 says so;
the strand alone does not ensure it); uuids are fresh; a socket write finishes in the step that starts it,
whole or in part.

## Where the code does not do what one would expect

Each of these has a run, or an input, that shows it, and a theorem saying for every run exactly when the code
does meet the expectation.

- `remote_connected` is set before SESSION_OK is sent and the buffer drained (lib/src/relay.cpp:638-649;
  docs/abc_protocol.md:146-149 has DATA written directly only after that), so DATA handled in between
  overtakes buffered DATA (`RelayTheorems.WindowReorders`, in the whole relay `RelayRealize.JointReorders`). From the
  completion of the connect on, while the provider meets no error and lists the session, the remote is given a
  prefix of the client's bytes, once the drain is through, if and only if the direct writes and drain rounds
  together give out the buffer's bytes first, as byte strings (`RelayWindow.ConnectExact`). For one direct write of
  `p` with `f` buffered, nothing having overtaken before, that is `p + f == f + p` (`DirectWriteExact`;
  `DirectWritesExact` for several before the drain). An empty buffer or an empty payload at every direct write is
  the simple guard (`QuietInOrder`).
- DATA_EOF handled in the same window shuts the remote before the buffer is written
  (`RelayTheorems.WindowEofLoses`). In every run, whatever follows, the remote gets all the client's bytes if and only
  if at that moment nothing was buffered or dropped and what had been written was in order
  (`RelayWindow.EofExact`).
- The provider erases a session when the remote ends (lib/src/relay.cpp:693), not when both DATA_EOF frames
  are in (docs/abc_protocol.md:189), so later client data is lost (`RelayTheorems.EarlyEofLoses`). In every run,
  whatever follows, the remote has all the client's bytes if and only if, when the provider's DATA_EOF has been
  sent, what was written is in order, none was dropped, none is in flight and none is read from the client
  afterwards (`RelayWindow.RemoteEndExact`).
- A failed drain write throws out of the session's coroutine, which then neither sends the SESSION_CLOSE of
  docs/abc_protocol.md:234 nor erases the session (`RelayTheorems.DrainFailureLingers`). No other step ends a coroutine
  with its session still listed (`LeftBehindExact`).
- A failed direct write leaves the provider's loop and ends every session (`RelayWitness.FailureSpreads`);
  `RelaySystem.OthersUntouched` says exactly when an event touches another session.
- After a peer's own EOF frame the matcher's closing block writes to a socket it has just closed, so that
  peer's connection stays open (`MatcherTheorems.OrderlyEndHalfDone`, exactly when: `ClosingExact`).
- An id with a space registers as something else (`Matcher.RegisterExact`).
- `chunk=0` is accepted (lib/src/tunnel.cpp:135-142) and then packing never ends (`Padding.PackTerminatesIff`).

One more difference needs no theorem: READY has an empty body in the code (lib/src/relay.cpp:337-338) and the body
`MATCHED` in docs/abc_protocol.md:54. The model follows the code.

## Model

| member | source | states |
|---|---|---|
| Octet.ByteRoundTrip | lib/src/padding.cpp:28-40 | a byte survives the way to a number and back |
| Bytes.U32RoundTrip | lib/src/padding.cpp:28-40 | a 32-bit number written most significant byte first is read back, whatever follows |
| Bytes.ReadWriteU32 | lib/src/padding.cpp:28-40 | the four bytes read as a number are the bytes that number is written as |
| Bytes.WriteDigits | lib/src/padding.cpp:28-34 | the four bytes written are the base-256 digits of the number, most significant first |
| Cipher.DecryptEncrypt | lib/src/cfb.cpp:89-113 | decrypt undoes encrypt from the same state and ends in the same state |
| Cipher.EncryptDecrypt | lib/src/cfb.cpp:89-113 | encrypt undoes decrypt, so both are length-preserving bijections |
| Cipher.EncryptSplit | lib/src/cfb.cpp:156-170 | cutting a stream into two encrypt calls changes neither bytes nor state |
| Cipher.DecryptSplit | lib/src/cfb.cpp:172-186 | the same for decrypt |
| Cipher.Lockstep | lib/src/cfb.cpp:83-113 | after every byte on the wire both ends are in equal states and the plain text so far is recovered |
| Cipher.Shape | lib/src/cfb.cpp:98-111 | the key stays as long as it was and the offset counts bytes modulo 2^64 on either side |
| Cipher.EncryptExact | lib/src/cfb.cpp:83-100 | every cipher byte is its plain byte masked with one key byte, which then grows by it while the next one is masked with it; all others stay |
| Cipher.SecondByte | lib/src/cfb.cpp:83-100 | the second cipher byte of a stream depends on the first in that way |
| Cipher.EncryptBuffer | lib/src/cfb.cpp:89-100 | the loop over buffer, key and offset computes the stream cipher |
| Cipher.DecryptBuffer | lib/src/cfb.cpp:102-113 | the decrypting loop, overwriting its buffer, computes the inverse cipher |
| Padding.PackTerminatesIff | lib/src/padding.cpp:48-67 | the packing loop ends on an input if and only if chunk is not zero or the input is empty |
| Padding.BuildFrame | lib/src/padding.cpp:49-63 | one round makes header, payload and the drawn padding, and moves the generator past exactly those draws |
| Padding.ApplyPack | lib/src/padding.cpp:42-68 | the loop appends exactly the frames of the input |
| Padding.PackCount | lib/src/padding.cpp:48-67 | as many frames as the input length divided by chunk, rounded up |
| Padding.PackSize | lib/src/padding.cpp:48-67 | each frame adds 8 bytes and at most max more |
| Padding.ParseLoop | lib/src/padding.cpp:74-120 | the receive loop yields the payloads, remainder and verdict of parsing the buffer once |
| Padding.FrameLayout | lib/src/padding.cpp:52-63 | eight header bytes with both lengths, most significant byte first, then payload, then padding |
| Padding.RefusedExact | lib/src/padding.cpp:82-92 | with eight bytes there, a buffer is refused at its first header if and only if one of its two numbers is over the limit |
| Padding.FirstFrameExact | lib/src/padding.cpp:94-116 | behind a good header the frame is given out exactly when all of it is there |
| Padding.RemainderExact | lib/src/padding.cpp:78-107 | what is kept is under eight bytes or a good header without its whole frame |
| Padding.ParseFrames | lib/src/padding.cpp:70-121 | frames at the front of a buffer are recovered one by one whatever stands behind |
| Padding.ParseConserves | lib/src/padding.cpp:74-120 | the buffer equals the frames consumed followed by the remainder; without a throw that is an incomplete frame shorter than 8 + chunk + max |
| Padding.ParseSplit | lib/src/padding.cpp:70-121 | two fragments parse like their concatenation: payloads, remainder and verdict |
| Padding.ParseBadStays | lib/src/padding.cpp:84-92 | more input changes neither a refusal nor the frames before it |
| Padding.PackParse | lib/src/padding.cpp:42-121 | what one pack call makes parses to exactly its input with nothing left over, for all draws |
| Padding.PackIsFrames | lib/src/padding.cpp:42-68 | what one pack call makes is the frames of the input's pieces with the drawn paddings |
| Padding.PiecesFull | lib/src/padding.cpp:48-49 | every piece but the last has chunk bytes, and none is empty |
| Processor.PackUnpack | lib/src/cfb.cpp:122-148 | for every kind of processor unpack undoes pack and the two halves meet again |
| Processor.PackListUnpack | lib/src/cfb.cpp:122-148 | the same for any number of pack calls delivered as one stream |
| Processor.UnpackSplit | lib/src/cfb.cpp:130-148 | unpack does not see where a stream is cut: next state, bytes and throw agree |
| Processor.UnpackListFlat | lib/src/padding.cpp:70-121 | any fragmentation is unpacked like the whole stream at once |
| Processor.PlainCopies | lib/src/identity.cpp:5-13 | an identity stage passes every buffer on |
| Processor.GreetingFirst | lib/src/cfb.cpp:188-228 | a packer sends the nonce's keyed digest and the nonce, first and as a buffer of its own, then encrypts from the digest of nonce and configured bytes |
| Processor.GreetingReceived | lib/src/cfb.cpp:130-148 | nothing is pushed before 544 bytes; then a throw, with nothing pushed, exactly if the first 32 are not the keyed digest of the other 512, else the rest decrypted from the digest of those and the configured bytes |
| Processor.MismatchIsFinal | lib/src/cfb.cpp:205-220 | with a wrong packet in the buffer every call throws and pushes nothing |
| Processor.ThrowIsFinal | lib/src/cfb.cpp:130-220 | after a call of any processor that threw every later call throws, and a handshake stage never pushes anything |
| Chain.DecodeSplit | lib/src/processor_chain.cpp:15-22 | a chain of unpackers gives the same bytes, verdict and final stage states for a and then b as for a followed by b |
| Chain.UnpackIsDecode | lib/src/processor_chain.cpp:15-22 | whatever buffers the stages exchange, the chain computes that stream function |
| Chain.PackDecode | lib/src/processor_chain.cpp:5-43 | a decoding chain undoes a packing chain and stays paired with it stage by stage |
| Chain.EntryLocal | lib/include/msg801/tunnel/processor.hpp:22-29 | local data on an entry chain goes through the pack halves, first stage first |
| Chain.EntryRemote | lib/src/processor_chain.cpp:25-43 | remote data on an entry chain goes through the unpack halves, last stage first |
| Chain.ExitLocal | lib/src/processor_chain.cpp:5-23 | on the reversed chain local data goes through the unpack halves in the order that undoes the entry chain |
| Chain.ExitRemote | lib/include/msg801/tunnel/processor.hpp:31-38 | on the reversed chain remote data goes through the pack halves in entry order |
| Builder.FillKey | lib/src/cfb.cpp:62-71 | a short key is kept and filled up to 8 bytes with the index of each added byte |
| Builder.BuildRefuses | lib/src/tunnel.cpp:98-160 | a list is refused if and only if one of its members is, in either order |
| Builder.SingleSpec | lib/src/tunnel.cpp:104-159 | for each kind of specification exactly when it is refused, and else the processor it becomes with its key, secrets or limits |
| Builder.EachSpec | lib/src/tunnel.cpp:93-98 | in a list each specification becomes its processor, at its place in the node's order |
| Builder.BuildLive | lib/src/tunnel.cpp:130-156 | a chain's packing always ends if and only if no padding stage of it has chunk=0 |
| Builder.BuildShape | lib/src/tunnel.cpp:84-163 | the two nodes' chains are mirror images, an identity stage without any specification |
| Builder.BuildPairs | lib/src/tunnel.cpp:93-156 | given the same specifications every pack half starts paired with its peer's unpack half |
| TwoHop.TwoHopCorrect | lib/src/processor_chain.cpp:5-43 | for all chains, keys, draws, reads and fragmentations: no throw, prefixes at every moment, equality on a drained wire, both ways |
| Duplex.DirectionsIndependent | lib/src/processor_chain.cpp:5-43 | in any interleaving each direction has the outcomes and state it would have alone |
| ProcessorObjects.CfbProcessor.PackInto | lib/src/cfb.cpp:73-76 | the object pushes the cipher text and moves its pack half only |
| ProcessorObjects.CfbProcessor.UnpackInto | lib/src/cfb.cpp:78-81 | the object pushes the plain text and moves its unpack half only |
| ProcessorObjects.CfbNonceProcessor.PackInto | lib/src/cfb.cpp:122-128 | the first call sends the handshake, every call the cipher text |
| ProcessorObjects.CfbNonceProcessor.UnpackInto | lib/src/cfb.cpp:130-148 | the handshake buffer, the check and the switch to decryption, including the throw |
| ProcessorObjects.PaddingProcessor.PackInto | lib/src/padding.cpp:18-21 | the object appends the frames and keeps its receive buffer |
| ProcessorObjects.PaddingProcessor.UnpackInto | lib/src/padding.cpp:23-26 | the object appends the payloads and keeps the remainder; on a throw the whole input stays buffered |
| ProcessorChainObject.ProcessorChain.OnLocalData | lib/src/processor_chain.cpp:5-23 | the nested loops over stages and buffers compute the chain's forward function, throws included |
| ProcessorChainObject.ProcessorChain.OnRemoteData | lib/src/processor_chain.cpp:25-43 | the reverse loops compute the backward function |
| ProcessorChainObject.ProcessorChain.FlushLocal | lib/src/processor_chain.cpp:45-57 | a chain of built-in processors flushes nothing and keeps its state |
| ProcessorChainObject.ProcessorChain.FlushRemote | lib/src/processor_chain.cpp:59-71 | the same for the other direction |
| ProcessorChainObject.BuildProcessorChain | lib/src/tunnel.cpp:84-163 | the builder's loop makes the chain of the specification, reversed for the exit node, or nothing, chunk=0 included |
| Tunnel.GracefulClose | lib/src/tunnel.cpp:243-371 | in every interleaving a side at end of file has written all the chain made of its reads, counted it, and only then shut; both ends of file close |
| Tunnel.ClosedExact | lib/src/tunnel.cpp:252-303 | a session is closed if and only if both sides have reached end of file or there was a read error, failed write or throwing chain call |
| Tunnel.LoopEnds | lib/src/tunnel.cpp:243-306 | a loop without end of file is over only if the session is closed or its read was cancelled; an end of file or cancelled read ends it |
| Tunnel.ClosedStops | lib/src/tunnel.cpp:246 | in a closed session no loop goes on to another read |
| Tunnel.StillFlows | lib/src/tunnel.cpp:283-305 | in every run, until the session is closed, what a loop reads is written out whole and it waits again, whether or not the other side has ended |
| Tunnel.ResponseAfterHalfClose | lib/src/tunnel.cpp:271-273 | a response of any length comes through after the client's half-close, and only the service's end of file closes |
| Tunnel.CloseLoggedOnce | lib/src/tunnel.cpp:400-412 | one close record, exactly when both loops have reported, with the final counts; afterwards nothing changes |
| Tunnel.SessionWire | lib/src/tunnel.cpp:283-305 | what a session's chain makes of one side's reads is what the two-hop system puts on the wire, on either node and whatever else is interleaved |
| Tunnel.GracefulDelivery | lib/src/tunnel.cpp:243-306 | at the client's end of file the bytes written decode at the exit node to exactly the client's bytes |
| Tunnel.GracefulReturn | lib/src/tunnel.cpp:308-371 | at the service's end of file the bytes an exit session has written decode at the entry node to exactly the service's bytes |
| TunnelSession.SessionState.LocalData | lib/src/tunnel.cpp:283-305 | the object's step on local data is the machine's |
| TunnelSession.SessionState.RemoteData | lib/src/tunnel.cpp:348-369 | the object's step on remote data is the machine's |
| TunnelSession.SessionState.LocalEndOfFile | lib/src/tunnel.cpp:252-273 | shutdown, empty flush and closing if the remote has ended |
| TunnelSession.SessionState.RemoteEndOfFile | lib/src/tunnel.cpp:317-338 | shutdown, empty flush and closing if the local side has ended |
| TunnelSession.SessionState.LocalWritten | lib/src/tunnel.cpp:295-304 | one buffer written and counted, the next one or the loop's test follows |
| TunnelSession.SessionState.RemoteWritten | lib/src/tunnel.cpp:360-369 | the same on the other loop |
| TunnelSession.SessionState.Fail | lib/src/tunnel.cpp:276-303 | a read or write error closes the session and ends the loop |
| TunnelSession.SessionState.OnDone | lib/src/tunnel.cpp:402-408 | the second completion logs |
| RelayCodec.WritersAgree | lib/src/relay.cpp:86-129 | both writers put the same bytes on a connection |
| RelayCodec.CodecExact | lib/src/relay.cpp:65-129 | a built frame is read back with the stream intact if and only if its body has at most 4294967294 bytes |
| RelayCodec.FrameLayout | lib/src/relay.cpp:114-129 | length of the rest most significant byte first, method, body |
| RelayCodec.ReadExact | lib/src/relay.cpp:65-84 | exactly when reading gives nothing, throws, or gives a frame, and which |
| RelayCodec.ReadAllBuildAll | lib/src/relay.cpp:65-129 | reading the bytes of any list of frames gives that list |
| RelayCodec.BrokenLink | lib/src/relay.cpp:65-84 | a connection cut at any byte delivers a prefix of the frames |
| RelayCodec.ReadFrames | lib/src/relay.cpp:404-409 | the reader loop gets exactly the frames of the stream |
| RelayCodec.DataBody | lib/src/relay.cpp:136-144 | splitting a DATA body at 36 bytes recovers uuid and payload |
| Matcher.RegisterExact | lib/src/relay.cpp:302-312 | a node is registered as it asked if and only if its id has no space |
| Matcher.ParseExact | lib/src/relay.cpp:294-312 | a first frame registers an id and role if and only if it is REGISTER, the id has no space and the body begins with id, space and letter |
| MatcherProofs.RunKeeps | lib/src/relay.cpp:227-347 | in every run: seats, greetings, pump streams, the dead flag and the open sockets all agree |
| MatcherTheorems.SlotsStay | lib/src/relay.cpp:320-332 | whoever holds a role of an id is never replaced |
| MatcherTheorems.OneHolder | lib/src/relay.cpp:314-332 | a connection is registered under an id and role if and only if it is the one that holds it |
| MatcherTheorems.OneGreeter | lib/src/relay.cpp:336-346 | at most one registration of an id performs the READY exchange, and only with both roles taken |
| MatcherTheorems.Forwarding | lib/src/relay.cpp:227-268 | a peer is sent READY, the image of a prefix of the other peer's frames with B's NEW_SESSION renamed, and at most one EOF at the end |
| MatcherTheorems.OthersToldNothing | lib/src/relay.cpp:320-339 | a waiting connection is sent nothing, a refused one at most EOF |
| MatcherTheorems.PairsApart | lib/src/relay.cpp:316-346 | no event about one id changes the pair or a connection of another |
| MatcherTheorems.RegistrationOutcome | lib/src/relay.cpp:294-332 | a new connection without registration is closed, one for a taken role is sent EOF and closed, any other holds its role; nobody else is touched |
| MatcherTheorems.ClosingOnce | lib/src/relay.cpp:255-267 | exactly one pump of a dead pair enters the closing block, none before |
| MatcherTheorems.DisconnectEnds | lib/src/relay.cpp:233-267 | a peer's disconnect kills an alive pair: the other peer is told EOF and both connections are closed |
| MatcherTheorems.WriteFailureEnds | lib/src/relay.cpp:250-267 | so does a failed write of a frame |
| MatcherTheorems.DeadPumpStops | lib/src/relay.cpp:255-261 | the pump of a dead pair whose connection is gone ends and writes nothing |
| MatcherTheorems.ClosingExact | lib/src/relay.cpp:239-267 | the closing block closes both connections if and only if its write works and the pump relayed no EOF itself |
| MatcherTheorems.ClosedExact | lib/src/relay.cpp:239-267 | a connection is closed if and only if an EOF was written to it or its own pump's closing block completed |
| MatcherTheorems.OrderlyEndHalfDone | lib/src/relay.cpp:239-267 | a run without failures after which both pumps have ended and the ending peer's connection is still open |
| MatcherServer.RelayServer.Register | lib/src/relay.cpp:294-336 | the coroutine with its early returns is the machine's step |
| MatcherServer.RelayServer.Refused | lib/src/relay.cpp:321-327 | a duplicate is sent EOF and dropped |
| MatcherServer.RelayServer.Greeted | lib/src/relay.cpp:336-347 | READY to B, READY to C, then both pumps, or nothing after a failed write |
| MatcherServer.PumpOneWay | lib/src/relay.cpp:227-268 | the pump loop run alone: frames passed, EOF written, sockets closed, as a function of input and failing writes |
| RelayTheorems.UpstreamConserved | lib/src/relay.cpp:511-536 | unless DATA overtook buffered DATA, the bytes read from the client are written to the remote, buffered, dropped or in flight, in that order |
| RelayWindow.BytesConserved | lib/src/relay.cpp:699-721 | in every run, overtaking included, the client's bytes are as a multiset those written, buffered, dropped and in flight |
| RelayTheorems.DownstreamConserved | lib/src/relay.cpp:659-685 | bytes read from the remote are written to the client, dropped or in flight, in that order, in every run |
| RelayTheorems.PrefixSafety | lib/src/relay.cpp:399-759 | in spite of failing writes, broken links and stopping nodes the client is given a prefix of the remote's bytes, the remote a prefix of the client's unless DATA overtook buffered DATA, and even then none that was not sent |
| RelayTheorems.CompleteDelivery | lib/src/relay.cpp:643-739 | once both nodes have removed an undisturbed session both directions are complete, and each send side was shut after all of it |
| RelayTheorems.ReturnDelivery | lib/src/relay.cpp:437-466 | a session the visitor removed without error has given its client all bytes read from the remote |
| RelayTheorems.CompletesOnce | lib/src/relay.cpp:643-739 | a run with an answer in which both nodes remove the session undisturbed and both directions are complete |
| RelayTheorems.ForwardDelivery | lib/src/relay.cpp:693-739 | with the client's end handled and the buffer drained in order, what the remote lacks is exactly the tail the provider dropped |
| RelayTheorems.VisitorCleanup | lib/src/relay.cpp:457-543 | without error a session leaves the table only with both half-close flags set, and is gone once pump and DATA_EOF are through, in any order |
| RelayTheorems.ProviderCleanup | lib/src/relay.cpp:643-739 | without error a session leaves the provider's table only when the remote has ended and has left it when its coroutine is over; one that stays has met a failed drain write |
| RelayTheorems.LeftBehindExact | lib/src/relay.cpp:644-648 | in any state a step ends a coroutine and leaves its session listed if and only if it is a failed drain write |
| RelayTheorems.DrainFailureLingers | lib/src/relay.cpp:644-648 | a run in which that happens and no SESSION_CLOSE is sent |
| RelayWindow.WindowExact | lib/src/relay.cpp:637-720 | from any point at which nothing was overtaken, for any interleaving of direct writes and drain rounds of an open session, order is kept if and only if they give out the buffer's bytes before the direct ones, as strings |
| RelayWindow.ConnectExact | lib/src/relay.cpp:637-720 | the same from the completion of the connect on, where nothing has been written or overtaken |
| RelayWindow.QuietInOrder | lib/src/relay.cpp:711-715 | writing past the buffer only empty payloads, or only when no byte is buffered, keeps the order |
| RelayWindow.DirectWritesExact | lib/src/relay.cpp:638-649 | several direct writes before the drain, with nothing overtaken before them, keep the order if and only if their bytes and the buffered bytes commute |
| RelayWindow.DirectWriteExact | lib/src/relay.cpp:638-649 | the first direct write past the buffer, followed by the drain, which reaches that state, keeps the order if and only if payload and buffered bytes commute |
| RelayWindow.EofExact | lib/src/relay.cpp:723-739 | after DATA_EOF is handled while connected, in every run and continuation the remote has all the client's bytes if and only if none was buffered or dropped and those written were in order; what was withheld is never written |
| RelayWindow.ErasureExact | lib/src/relay.cpp:693 | in every run an erased session is complete in the end if and only if nothing was buffered, dropped or in flight, what was written was in order and the client is not read again |
| RelayWindow.RemoteEndExact | lib/src/relay.cpp:665-693 | the same from the moment the provider's own DATA_EOF has been sent, where nothing is buffered |
| RelayEndings.RefusalDrops | lib/src/relay.cpp:428-474 | SESSION_ERR and SESSION_CLOSE for a listed session close it, erase it and close its client, in every run |
| RelayEndings.CloseEnds | lib/src/relay.cpp:741-754 | SESSION_CLOSE for a listed session closes it, erases it and closes its remote |
| RelayEndings.StrayFrames | lib/src/relay.cpp:418-420 | a frame for a session that is not in the table changes nothing but what is counted as dropped |
| RelayEndings.AcceptedChangesNothing | lib/src/relay.cpp:424-426 | SESSION_OK changes nothing |
| RelayEndings.VisitorData | lib/src/relay.cpp:437-455 | DATA is written to a listed client and dropped otherwise |
| RelayEndings.VisitorEof | lib/src/relay.cpp:457-466 | DATA_EOF shuts the client's send side behind all that was written and erases only after its own end of file |
| RelayEndings.ProviderData | lib/src/relay.cpp:699-721 | DATA is written if connected, parked while connecting, else dropped |
| RelayEndings.ProviderEof | lib/src/relay.cpp:723-739 | DATA_EOF shuts a connected remote at once, and erases only after its own end of file |
| RelayEndings.DialSucceeds | lib/src/relay.cpp:637-641 | a successful dial is announced with SESSION_OK and leads to the drain |
| RelayEndings.DrainOver | lib/src/relay.cpp:649-660 | after the drain an earlier DATA_EOF takes effect and reading begins unless the session is closed |
| RelayEndings.ReadErrorEnds | lib/src/relay.cpp:528-543 | a client read error sends SESSION_CLOSE, closes and erases |
| RelayEndings.FailedWriteDrops | lib/src/relay.cpp:445-452 | a failed client write sends SESSION_CLOSE, closes the client and erases |
| RelayEndings.ClosedPumpStops | lib/src/relay.cpp:516-543 | the pump of a closed session stops and erases it |
| RelayEndings.FailedDirectWrite | lib/src/relay.cpp:711-715 | a failed direct write is counted and leaves the remote unusable |
| RelayEndings.FailedDrainWrite | lib/src/relay.cpp:644-648 | a failed drain write drops all that was buffered and ends the coroutine |
| RelayEndings.DialFailureEnds | lib/src/relay.cpp:625-635 | a refused dial sends SESSION_ERR, closes and erases |
| RelayEndings.RemoteErrorEnds | lib/src/relay.cpp:674-693 | a remote read error sends SESSION_CLOSE, closes and erases |
| RelayEndings.RemoteEofErases | lib/src/relay.cpp:665-693 | the remote's end of file sends DATA_EOF and erases, whatever the client does |
| RelayEndings.ClosedCoroutineStops | lib/src/relay.cpp:660-693 | the coroutine of a closed session stops and erases it |
| RelayEndings.HaltsClose | lib/src/relay.cpp:483-488 | a node's reader that ends takes every session out of the table and closes its socket |
| RelayEndings.RefusedDial | lib/src/relay.cpp:625-635 | in every run a refused dial of a listed session ends with the client closed and neither node having the session |
| RelayTheorems.WindowReorders | lib/src/relay.cpp:637-649 | a run without failures in which the second payload reaches the remote alone |
| RelayTheorems.WindowEofLoses | lib/src/relay.cpp:643-655 | a run in which DATA_EOF shuts the remote before the buffer can be written |
| RelayTheorems.EarlyEofLoses | lib/src/relay.cpp:693-706 | a run in which client data is dropped because the remote ended first |
| RelayProofs.RunKeeps | lib/src/relay.cpp:399-759 | in every run of a session: conservation both ways, frame order, announcement and the shapes of both records |
| RelaySystem.FrameReadBack | lib/src/relay.cpp:131-144 | every message of a session is read back with its uuid by visitor and provider, past the matcher's renaming |
| RelaySystem.WireBytes | lib/src/relay.cpp:41-52 | the bytes of every message of a session, before and behind the matcher |
| RelaySystem.ControlBytes | lib/src/relay.cpp:798-801 | the bytes of REGISTER, READY and EOF |
| RelaySystem.Ignored | lib/src/relay.cpp:414-415 | frames that are too short or of a method the node does not know change nothing |
| RelaySystem.ActProjects | lib/src/relay.cpp:414-478 | one act of the whole system is, to each session, a few steps of that session alone |
| RelaySystem.Projection | lib/src/relay.cpp:606-758 | a run of any number of sessions is, to each uuid, a run of the single-session machine |
| RelaySystem.OthersUntouched | lib/src/relay.cpp:699-770 | an act about one session leaves another untouched if and only if it does not end a node that still lists it |
| RelaySystem.LoopEndsExact | lib/src/relay.cpp:699-770 | the provider's loop ends if and only if the frame is EOF or non-empty DATA for a live connected session whose write fails; then no session is listed |
| RelaySystem.Isolation | lib/src/relay.cpp:399-759 | among any other sessions a client is given only a prefix of its own remote's bytes, a remote only a prefix of its own client's unless DATA overtook buffered DATA, and even then no byte of another |
| RelaySystem.DeliveryForAll | lib/src/relay.cpp:643-739 | complete delivery for every session of a system run |
| RelayWitness.FailureSpreads | lib/src/relay.cpp:711-770 | for any two uuids, a run in which a failed write of one session removes the other, connected one and closes its remote |
| RelayJoint.JointStep | lib/src/relay.cpp:227-268 | every act of nodes, links and pumps is at most one act of the system in which a frame in a pump's hands has not left its link |
| RelayJoint.Refines | lib/src/relay.cpp:227-268 | a run of matcher and nodes together is a run of the matcher alone and, to the nodes, a run of the system alone |
| RelayJoint.JointIsolation | lib/src/relay.cpp:227-759 | the same with the matcher's pumps in between: prefixes, towards the remote unless DATA overtook buffered DATA, and never a byte of another session |
| RelayJoint.JointDelivery | lib/src/relay.cpp:227-759 | with the matcher's pumps in between undisturbed removed sessions are complete both ways |
| RelayRealize.Carries | lib/src/relay.cpp:231-251 | two steps of a pump take one frame through the matcher, renamed if it is B's NEW_SESSION |
| RelayRealize.Realizes | lib/src/relay.cpp:227-759 | every session run without provider error or stopped node is one of the whole relay with the same records on both nodes |
| RelayRealize.JointCompletes | lib/src/relay.cpp:227-759 | a run of the whole relay in which an undisturbed session is removed on both nodes and complete both ways |
| RelayRealize.JointReorders | lib/src/relay.cpp:637-649 | a run of the whole relay without error in which the second payload reaches the remote alone |
| VisitorNode.Visitor.Accept | lib/src/relay.cpp:504-508 | a new session is listed and about to announce itself, others unchanged |
| VisitorNode.Visitor.Written | lib/src/relay.cpp:187-198 | the pending frame is appended to what the node has sent |
| VisitorNode.Visitor.Resumed | lib/src/relay.cpp:516-543 | the pump goes on or ends, and erases a closed session |
| VisitorNode.Visitor.Read | lib/src/relay.cpp:517-536 | bytes, end of file and errors of the client |
| VisitorNode.Visitor.OnFrame | lib/src/relay.cpp:414-478 | one frame changes the addressed session as the machine says and no other |
| VisitorNode.Visitor.Dispatch | lib/src/relay.cpp:423-478 | the switch on a listed session |
| VisitorNode.Visitor.FailWritten | lib/src/relay.cpp:445-448 | SESSION_CLOSE after a failed client write |
| VisitorNode.Visitor.FailResumed | lib/src/relay.cpp:449-452 | then the session is closed and erased |
| VisitorNode.Visitor.Disconnected | lib/src/relay.cpp:483-488 | every listed client is closed, the table is empty, other records stay |
| ProviderNode.SessionState.Connected | lib/src/relay.cpp:620-641 | both outcomes of the connect |
| ProviderNode.SessionState.DrainOne | lib/src/relay.cpp:644-648 | one buffered payload is written, an empty one on any socket |
| ProviderNode.SessionState.DrainThrows | lib/src/relay.cpp:644-648 | a failing drain write ends the coroutine and leaves the session listed |
| ProviderNode.SessionState.Read | lib/src/relay.cpp:661-684 | bytes, end of file and errors of the remote |
| ProviderNode.SessionState.WriteRemote | lib/src/relay.cpp:711-715 | the direct write and its exception; an empty write succeeds on any socket |
| ProviderNode.Provider.Resumed | lib/src/relay.cpp:629-693 | what follows each kind of frame written by the coroutine |
| ProviderNode.Provider.Drained | lib/src/relay.cpp:649-660 | the deferred shutdown and the start of the pump |
| ProviderNode.Provider.NewSession | lib/src/relay.cpp:608-619 | a session is made and dials, replacing any of its uuid |
| ProviderNode.Provider.Deliver | lib/src/relay.cpp:707-720 | DATA is written, parked or dropped |
| ProviderNode.Provider.EndOfData | lib/src/relay.cpp:723-739 | half-close, with the shutdown only once connected |
| ProviderNode.Provider.CloseSession | lib/src/relay.cpp:741-754 | the session is closed and erased |
| ProviderNode.Provider.OnFrame | lib/src/relay.cpp:606-758 | one frame changes the addressed session as the machine says and no other, and throws exactly on a failed direct write |
| ProviderNode.Provider.Disconnected | lib/src/relay.cpp:763-770 | every listed remote is closed, the table is empty, other records stay |

## Left out

- Sockets, acceptors, address parsing, timers, the statistics loop, log texts, the command line, UDP sender and
  server: plumbing. A socket is the bytes read from and written to it, and whether it is open, shut or broken.
- Library failures in OpenSSL (digest contexts, HMAC keys above the largest `int`, random generator errors),
  and all cryptographic strength.
- The Mersenne Twister and its distributions: a draw is any number, reduced to its range; seeds do not occur.
- Text parsing of processor arguments (`parse_kv`, `split`, `std::stoull` errors) and the deprecated
  per-processor `reverse=`: the builder starts from parsed values.
- RelayTheorems.UpstreamConserved: keeps the order only unless DATA overtook buffered DATA, because then the code
  reorders; `RelayWindow.BytesConserved` has what holds without that condition.
- RelayTheorems.PrefixSafety: has the same condition towards the remote, and so have `RelaySystem.Isolation` and
  `RelayJoint.JointIsolation`; their last clause holds in every run.
- Chain.PackDecode: pack halves need `chunk >= 1`, because with 0 the code's loop does not end; the exact
  condition is `Padding.PackTerminatesIff`.
- ProviderNode.SessionState.DrainOne: the drained payloads leave the buffer one by one here and all at the end in
  the code, which no one can observe in between.
- Padding.ParseLoop: the check that a frame length fits `size_t` is proved superfluous for 64-bit `size_t` and
  has no branch.
- Shared ownership: a record is kept by uuid after its session is erased, where the code has a
  `shared_ptr` held by the coroutine; the matcher's `Peer` and `Match` are values in tables.
- Writes that are in progress at the same time on one socket (the drain loop beside a direct write), and the
  iterator that the visitor still holds after its awaited writes (lib/src/relay.cpp:441-451).
- The handlers for exceptions in the pumps (lib/src/relay.cpp:537-540, 686-691): nothing in those loops throws when
  writes report errors by code.
- A failing `aconn_write` is a link that has broken: the frame is never delivered and the writer goes on,
  as in the code.
- The end of the accept loop (lib/src/relay.cpp:548-553), reconnection, and the node's synchronous start-up up to
  READY (lib/src/relay.cpp:777-821).
- Generation of uuids: a session is accepted under one that has not occurred before.

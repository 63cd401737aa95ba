# Verified model of the VPN plugin

This project models the Rust core of `tauri-plugin-vpn` in Dafny and proves properties of the model.

- **The OLC RTC multiplexer** (`src/olcrtc/mux.rs`): 12-byte big-endian frames, 7000-byte chunks, 32-bit
  sequence numbers per stream, a reorder buffer capped at 100 entries, replacement of a stream record when
  another client id writes to it, client resets, 16-bit stream ids allocated from a wrapping counter, and
  the wait/notify handshake. `Mux.Multiplexer` is the object, with one method per function of the source.
  Each acquisition of the `streams` lock is one transition of `Table.Step`, and the methods are proved
  against it. Runs, interleavings and the channel are built from those transitions.
- **The SOCKS5 client** (`src/olcrtc/client.rs`): greeting and request (sections 3 to 5 of RFC 1928),
  tunnel setup, and the two pumps under `select!`.
- **The desktop engine** (`src/engine.rs`, `src/commands.rs`) on Linux and Windows: starts and stops under the
  `child` lock, cut at every point where another task may run, and the `connect` and `disconnect` commands.
- **Profiles and configuration** (`src/protocols.rs`, `src/config.rs`, `src/olcrtc/mod.rs`, `src/import.rs`):
  validation against generation, and the references inside a generated configuration.
- **The textual decoders** (`src/import.rs`, `src/olcrtc/crypto.rs`).

| file | contents |
|---|---|
| `Words.dfy` | machine words, big-endian codecs, concatenation and chunking |
| `Frames.dfy` | the frame format |
| `Streams.dfy` | one stream record: accepting a data frame, draining the reorder buffer |
| `Table.dfy` | the table of records, one transition per lock section; the stream-id search |
| `Multiplexer.dfy` | module `Mux`: the object and its methods |
| `Reorder.dfy`, `Displacement.dfy` | the reorder buffer against a specification on sets of frames; the orders of arrival that lose nothing |
| `Wrapping.dfy` | frame numbers modulo 2^32 against absolute positions |
| `Runs.dfy` | stream isolation and epochs |
| `Delivery.dfy` | sender, unreliable channel and receiver |
| `Copies.dfy` | the copies of a frame that may be delivered |
| `Restarts.dfy` | the frames that make the sender number a stream from 0 again |
| `Wakeup.dfy` | the wait/notify handshake in every interleaving |
| `Issuing.dfy` | concurrent `send_data` calls |
| `Socks.dfy` | the SOCKS5 messages and the socket |
| `Tunnel.dfy`, `Client.dfy` | one connection over one stream: what holds of it, and the connection step by step |
| `Engine.dfy`, `Plugin.dfy`, `Overlap.dfy` | the engine in every interleaving; the engine object and the commands; overlapping commands |
| `Text.dfy`, `Profiles.dfy`, `Config.dfy`, `Routing.dfy` | strings, profiles and validation, outbounds, the whole configuration |
| `Decoders.dfy` | hexadecimal and base64 |

## Where the code falls short of what one might expect

These statements are proved of the code as it is.

- The sequence comparison is not modular. A late copy of a frame leaves the record unchanged exactly when its
  number is below the expected one, or when the buffer is full or already holds that very frame under that
  number (`Wrapping.LateCopyIgnoredExactly`). Any other late copy, possible only on streams of 2^32 frames or
  more, is taken for a chunk still to come, as is a frame of a later block of 2^32 numbers, and meeting an
  empty buffer it is delivered in place of that chunk (`Wrapping.StaleCopyDelivered`). Prefix delivery
  survives the delivery of a copy if and only if it is not taken for another chunk, is dropped, or is taken
  for an equal one (`Copies.SafeCopyExactly`, at every reachable state).
- A data frame of another client replaces the record of the *sender* too, a reset removes it, and numbering
  starts from 0 again. Prefix delivery goes on holding after such a frame if and only if every replaced or
  removed record had 0 as its next number (`Restarts.HarmlessExactly`, at every reachable state); after any
  other frame a run that breaks it is constructed, and a short one from the start is
  `Restarts.ReplacedSenderBreaksDelivery`.
- Frames that arrive once each, in any order, deliver every stream of that many chunks if and only if no frame
  is overtaken by more than 100 later ones and none arrives before all the frames of earlier blocks of 2^32
  numbers (`Displacement.SingleCopiesDeliveredExactly`). Two neighbours swapped where the number wraps lose a
  chunk (`Displacement.SwapAcrossWrapLoses`).
- `setup_tunnel` keeps only the first byte of what it reads: bytes that arrive together with the status byte
  are never written to the client (`Tunnel.SocketSees`), for instance those a peer sends in the same frame
  (`Tunnel.DataWithStatusIsLost`).
- With no stream id free a connection waits for ever in `open_stream`, which holds the lock of the table
  (`Mux.Multiplexer.OpenStream`, `Client.Connection.HandleSocks5`).
- Validation and generation disagree on WireGuard profiles without an IPv4 address and on OLC RTC profiles
  whose extra `key` hides the password (`Config.OutboundExactly`; instances in `Config.NoIpv4Fails`, such as
  the IPv6-only tunnels of `Config.Ipv6Only`, and in `Config.HiddenKeyFails`). The import of generic URIs
  produces no such profile (`Config.ImportedProfilesGenerate`).
- The four routing rules for OLC RTC are appended behind the rule that sends every TCP and UDP connection to
  the proxy (`Routing.RouteRules`).
- Overlapping commands can leave the phase `Connected` without a core process, or `Disconnected` with one. For
  one `connect` and one `disconnect` the two agree afterwards if and only if the start did not come up, or the
  command that acted last on the engine also wrote the phase last (`Overlap.PairExactly`); for any
  number of commands `Overlap.AgreementExactly` reduces agreement to the last write and the last action.
- A stop whose kill times out leaves the OLC RTC client stored and listening. It stays so exactly while that
  stop is the last one that found a core process (`Engine.OlcrtcLeftBehindExactly`), and until another start
  has come up every `connect` for the same local port fails, unless that is port 0, which stands for any free
  one (`Engine.PortBlockedUntilReplaced`, `Plugin.ConnectPossibleExactly`).
- `README.md:82-83` of the repository says that the TUN address is IPv4-only and the DNS strategy always
  `ipv4_only`; the code uses an additional IPv6 address and `prefer_ipv4` on iOS (`src/config.rs:97-119`), and
  the model follows the code.

## Model

| member | source | states |
|---|---|---|
| Words.Be16Bijective | src/olcrtc/mux.rs:143-144 | Big-endian encoding and decoding of 16-bit words are inverse in both directions. |
| Words.Be32Bijective | src/olcrtc/mux.rs:142-145 | The same for 32-bit words. |
| Sequences.ChunksPartition | src/olcrtc/mux.rs:75 | The chunks of any data are nonempty, at most 7000 bytes, concatenate to the data, and there are ceil(n / 7000) of them. |
| Frames.DataFrameExactly | src/olcrtc/mux.rs:130-155 | A byte string is taken for a given data frame if and only if it starts with the encoding of that frame, with one exception: a 65535-byte payload on the control stream id. |
| Frames.BuiltFramesParseBack | src/olcrtc/mux.rs:89-126 | Every data, close and reset frame that is built is taken for what it was built as, with the same client id, stream id, number and payload, even on stream id 0xFFFF. |
| Frames.ParsedFromFrame | src/olcrtc/mux.rs:130-155 | Whatever is recognised in a byte string of any length really is at its front; payloads are nonempty and never read past the end. |
| Streams.DrainBounds | src/olcrtc/mux.rs:175-178 | Draining consumes consecutive numbers, leaves only numbers strictly ahead, and can wrap only onto an empty buffer. |
| Streams.AcceptKeepsBound | src/olcrtc/mux.rs:172-185 | Every data frame keeps at most 100 buffered entries, all strictly ahead of the expected number; when the expected number wraps it becomes 0 and the buffer is empty. |
| Table.RunKeepsBound | src/olcrtc/mux.rs:172-185 | In every run of any operations, every record keeps that bound, and its `Notify` is one created for its own stream id. |
| Table.ResetExactly | src/olcrtc/mux.rs:245-256 | A reset frame removes exactly the records with its client id and leaves all others unchanged. |
| Table.CloseIsReported | src/olcrtc/mux.rs:220-256 | A stream closed locally, by its client's close frame or by its client's reset is reported as closed. |
| Table.ReopenedExactly | src/olcrtc/mux.rs:157-226 | A stream reported as closed is reported as open again exactly by an operation that creates its record or replaces it with another client's. |
| Table.SearchStopsExactly | src/olcrtc/mux.rs:58-72 | The id search meets a vacant id within 65536 turns if and only if one of the ids 1 to 65535 is vacant. |
| Mux.Multiplexer.constructor | src/olcrtc/mux.rs:46-56 | No records, and the id counter at 1. |
| Mux.Multiplexer.OpenStream | src/olcrtc/mux.rs:58-72 | Finds an id exactly if one of 1 to 65535 is vacant: the first vacant one from the counter on in cyclic order, under which it adds a fresh record; the counter ends just behind. Otherwise the search goes round for ever and changes nothing. |
| Mux.Multiplexer.IssueSequence | src/olcrtc/mux.rs:76-87 | One chunk's lock section hands out the record's next number and advances it modulo 2^32, or hands out nothing if the record is missing or closed. |
| Mux.Multiplexer.SendData | src/olcrtc/mux.rs:74-98 | Undisturbed, hands over the frames of the data's chunks under consecutive numbers: all of them, or those up to the first that the transport refuses, for which a number is used up; a missing or closed stream hands over nothing and reports success. |
| Mux.Multiplexer.CloseStream | src/olcrtc/mux.rs:100-113 | Marks the record closed, signals its `Notify`, and hands over one close frame whether or not a record exists. |
| Mux.Multiplexer.SendClientReset | src/olcrtc/mux.rs:115-128 | Refused exactly for client id 0; otherwise hands over one reset frame and changes no record. |
| Mux.Multiplexer.HandleFrame | src/olcrtc/mux.rs:130-191 | For every byte string the table becomes the one of the classified frame, and exactly the `Notify`s of that transition are signalled. |
| Mux.Multiplexer.DataSection | src/olcrtc/mux.rs:155-186 | The lock section of a data frame creates or replaces the record, places the payload, and returns the record's `Notify` exactly when something became readable. |
| Mux.Multiplexer.Place | src/olcrtc/mux.rs:172-185 | The branches for the expected, a later and any other number amount to `Streams.Accept` on that record and touch no other. |
| Mux.Multiplexer.DrainBuffer | src/olcrtc/mux.rs:175-178 | The loop that empties the front of the reorder buffer computes the recursive `Streams.Drain`, appending the payloads in order. |
| Mux.Multiplexer.MarkClosed | src/olcrtc/mux.rs:228-243 | Closes and signals the record only if the client id matches. |
| Mux.Multiplexer.ResetClient | src/olcrtc/mux.rs:245-256 | Visiting the records one by one removes exactly those of the client and signals each of them. |
| Mux.Multiplexer.ReadStream | src/olcrtc/mux.rs:193-199 | Returns all readable bytes and leaves none; nothing for a missing record. |
| Mux.Multiplexer.WaitSection | src/olcrtc/mux.rs:201-214 | Creates a missing record under the multiplexer's own client id, and yields the `Notify` to wait on exactly when there is neither data nor a close. |
| Reorder.AcceptHolds | src/olcrtc/mux.rs:172-185 | One frame takes the record that holds exactly a set of frames, of a stream of any length, to the record that holds that set with the frame kept or refused. |
| Reorder.FeedRefinesKept | src/olcrtc/mux.rs:155-186 | After any arrivals in any order with duplicates and gaps, none of which is mistaken for another, the expected number is that of the least frame not kept, the delivered bytes are the chunks below it in order, and the buffer holds exactly the kept frames above it with their own payloads. |
| Displacement.NothingRefusedExactly | src/olcrtc/mux.rs:180-185 | No new frame is refused if and only if at most 100 distinct later frames arrive before the first copy of each frame, and no frame before all the frames of earlier blocks of 2^32 numbers. |
| Displacement.OrderIndependence | src/olcrtc/mux.rs:155-186 | Two runs that meet this condition, mistake no frame and consist of the same frames end in the same record. |
| Displacement.BoundedDisplacementDelivers | src/olcrtc/mux.rs:172-185 | If every frame arrives, none is mistaken and the condition holds, the whole stream is delivered. |
| Displacement.SingleCopiesDeliveredExactly | src/olcrtc/mux.rs:172-185 | If every frame of a stream of any length arrives exactly once, every stream of that length is delivered whole if and only if the condition holds. |
| Displacement.ShortRuns | src/olcrtc/mux.rs:172-185 | On streams of fewer than 2^32 chunks no frame is mistaken and the blocks come in turn, so that bounded displacement is the whole condition. |
| Displacement.SwapAcrossWrapLoses | src/olcrtc/mux.rs:172-182 | If the frame numbered 0 overtakes the expected one numbered 2^32 - 1, its chunk is lost and the record waits for it. |
| Wrapping.DrainAfter | src/olcrtc/mux.rs:174-178 | After the expected chunk, draining takes out exactly the chunks that come next, also when the number wraps on the way. |
| Wrapping.AcceptAligned | src/olcrtc/mux.rs:172-185 | Any copy of a chunk of the expected one's block of 2^32 numbers, or with a number below the expected one, keeps the record aligned with the absolute positions, and releases exactly the next chunks. |
| Wrapping.LateCopyIgnoredExactly | src/olcrtc/mux.rs:172-185 | A late copy leaves the record unchanged if and only if its number is below the expected one, or above it while the buffer is full or already holds that very chunk under it. |
| Wrapping.StaleCopyDelivered | src/olcrtc/mux.rs:172-185 | Any other copy, late or of a later block, that meets an empty buffer is delivered in place of the chunk it is taken for, at once or when the chunks before that position have arrived. |
| Wrapping.ShortStreamsAdmissible | src/olcrtc/mux.rs:172-185 | On a stream of fewer than 2^32 chunks every copy is of that harmless kind. |
| Wrapping.InOrderLosesNothing | src/olcrtc/mux.rs:172-179 | In-order arrival delivers every chunk across any number of wraps and leaves the buffer empty. |
| Runs.RunIsolated | src/olcrtc/mux.rs:130-256 | The record of a stream after any run equals its record after only the operations on that stream and the reset frames. |
| Runs.EpochIndependence | src/olcrtc/mux.rs:142-186 | The receive state of a record is that of a fresh one fed only its client's data frames and reads since the last foreign data frame or own reset; nothing earlier survives. |
| Delivery.RunKeepsInvariant | src/olcrtc/mux.rs:74-199 | Over every run of sender, channel, other clients and receiver: the sender numbers consecutively, the packet of every chunk is on the wire with that chunk, and every receiving record is aligned with the chunks of its stream. |
| Delivery.PrefixDelivery | src/olcrtc/mux.rs:74-199 | Whatever the channel drops, repeats and reorders and whatever other clients send, the bytes read on a stream since the record began, followed by the readable ones, are a prefix of the chunks numbered on it; copies are delivered if `Copies.SafeCopyExactly` calls them safe. |
| Delivery.ShortStreamsSafe | src/olcrtc/mux.rs:172-185 | On streams of fewer than 2^32 chunks every copy of every frame may be delivered. |
| Copies.SafeCopyExactly | src/olcrtc/mux.rs:172-185 | At every reachable state whose sender can go on, for every copy of a data frame on the wire: prefix delivery holds on all streams in all runs after its delivery if and only if the copy is not taken for another chunk, is dropped by a full buffer, or is taken for an equal chunk. |
| Copies.UnsafeCopyBreaks | src/olcrtc/mux.rs:172-185 | After any other copy there is a run, using only what the sender itself sends, after which the receiver's bytes are no prefix of the chunks. |
| Restarts.RecordRestarts | src/olcrtc/mux.rs:157-170 | A frame that replaces or removes a record with a number to lose leaves a stream whose next number is 0 although chunks were numbered on it. |
| Restarts.RestartBreaks | src/olcrtc/mux.rs:74-199 | From any such state there is a run, using only what the sender itself sends, after which the receiver's bytes are no prefix of the chunks. |
| Restarts.HarmlessExactly | src/olcrtc/mux.rs:157-170 | At every reachable state and for every frame the sender hears: prefix delivery holds on all streams in all runs afterwards if and only if the frame replaces and removes only records whose next number is 0. |
| Restarts.ReplacedSenderBreaksDelivery | src/olcrtc/mux.rs:163-170 | A run from the start: open, send a byte, hear another client's frame, send another byte, deliver it; the receiver takes the second byte for the first. |
| Wakeup.RunKeepsInvariant | src/olcrtc/mux.rs:100-256 | In every interleaving of lock sections, notify steps and one waiter per stream, a waiter about to park or parked is backed by a permit or a pending signal whenever its record has work, and holds a permit if its `Notify` is not the record's. |
| Wakeup.NoLostWakeup | src/olcrtc/mux.rs:156-218 | A parked waiter is parked on the `Notify` of the present record, and if that record has data or is closed, a handler is about to signal that very `Notify`; replacements and resets included. |
| Wakeup.QuietMeansServed | src/olcrtc/mux.rs:188-218 | With no handler between its section and its signal, nobody is parked on a stream that has data or is closed. |
| Wakeup.SignalReleasesWaiter | src/olcrtc/mux.rs:201-218 | From such a state the signal, the waiter's resumption and its check are possible in a row, and the wait returns. |
| Issuing.NumbersIssued | src/olcrtc/mux.rs:74-98 | Over every interleaving of any number of calls on one record, numbers are 0, 1, 2, ... modulo 2^32; the payloads of each call are the first chunks of its data in order; a call that issued all of them put exactly its data on the stream in ceil(n / 7000) frames. |
| Issuing.NothingAfterClose | src/olcrtc/mux.rs:81-107 | Once closed, a record that is neither replaced nor removed stays closed and no number is handed out. |
| Socks.GreetingReadExactly | src/olcrtc/client.rs:179-187 | The greeting is accepted exactly on byte strings that start with one, and covers just that one. |
| Socks.RequestReadExactly | src/olcrtc/client.rs:192-231 | A request is read exactly off the byte strings that start with its encoding, for any reserved byte and for all three address types; domains must be UTF-8. |
| Socks.Socket.Handshake | src/olcrtc/client.rs:179-190 | Accepts exactly if a greeting can be read and its answer written, consumes exactly the greeting and writes 5, 0, or what can be written of it; without a greeting nothing is written. |
| Socks.Socket.ReceiveTarget | src/olcrtc/client.rs:202-226 | The reads for each address type return the address at the front of the input and consume exactly its encoding. |
| Socks.Socket.ReceiveRequest | src/olcrtc/client.rs:192-231 | Returns the request at the front of the input and consumes exactly its encoding. |
| Tunnel.OthersDisturb | src/olcrtc/mux.rs:130-191 | A frame that neither replaces nor removes the record, or an operation on another stream, only appends readable bytes to it, closes it, or moves its receive counters. |
| Tunnel.OthersDisturbRun | src/olcrtc/client.rs:108-117 | So does any number of them in a row, such as those of all other connections over the same table. |
| Tunnel.NumberKeepsUplink | src/olcrtc/mux.rs:76-95 | Giving the next chunk its number puts exactly its frame in flight and keeps numbered and pending chunks together what the client sent. |
| Tunnel.ArrivalKeepsUplink | src/olcrtc/mux.rs:95 | When the frame in flight is taken or refused, the frames handed over are again those of the numbered chunks in order, all taken but perhaps the last. |
| Tunnel.SocketSees | src/olcrtc/client.rs:161-171 | The client sees a success reply exactly when the tunnel is established; then the first delivered byte was 0, behind the reply comes a contiguous run of the delivered bytes that starts behind everything the setup consumed, and the bytes skipped are those that came with the status byte, none exactly if it came alone. |
| Tunnel.FirstFrameReadable | src/olcrtc/mux.rs:155-186 | A peer's first frame on a freshly opened stream becomes readable as a whole, so that the setup takes all of it (`Client.Connection.AwaitResponse`). |
| Tunnel.DataWithStatusIsLost | src/olcrtc/client.rs:163-166 | If the response taken by the setup begins with the status byte and data, as it does if a peer sends both in its first frame, the data is among the bytes that are skipped, whatever follows. |
| Client.Connection.PeerSeesAlways | src/olcrtc/client.rs:133-147 | At every point of a connection and when it is over, what the peer has read on the stream and can read is a prefix of the request followed by the client's own bytes: the connection carries its stream's part of `Delivery.System` along, numbers its chunks there and lets channel and peer act at every await. |
| Client.Connection.Begin | src/olcrtc/client.rs:130-133 | Greeting and request are read before a stream is opened; the request text is what there is to send first. A stream is asked for exactly if both can be read and the greeting answered. |
| Client.Connection.OpenTunnel | src/olcrtc/client.rs:133 | A freshly opened record satisfies the invariants of both directions; without a free id the connection waits for ever. |
| Client.Connection.NumberChunk | src/olcrtc/mux.rs:76-87 | The lock section of a turn, whatever other tasks did meanwhile: the next chunk gets the next number and its frame is in flight, or the stream is closed and the rest is dropped. |
| Client.Connection.CompleteSend | src/olcrtc/mux.rs:89-95 | The awaited send completes or fails, with other tasks running before it does: exactly that frame is handed over, and the uplink ends if it is refused. |
| Client.Connection.SendStep | src/olcrtc/mux.rs:75-96 | Either half does just that and leaves less to do of the call. |
| Client.Connection.UplinkStep | src/olcrtc/client.rs:233-245 | With a frame in flight or chunks pending, half a turn of `send_data`; otherwise the chunks of the next bytes of the input are pending, or the uplink ends because there are none. Every step brings the uplink nearer to its end. |
| Client.Connection.SendRequest | src/olcrtc/client.rs:158-159 | The connect request goes out as the first chunks, all of it unless the stream was closed or the transport failed. |
| Client.Connection.AwaitResponse | src/olcrtc/client.rs:161-176 | Takes at least all that was readable, and does not time out if something was or the stream was closed; the tunnel is established exactly if the response begins with 0 and the reply can be written, and the reply, as far as it can be written, is the one for that response. A timeout happens only if nothing was delivered. |
| Client.Connection.SetupTunnel | src/olcrtc/client.rs:151-177 | All of the request is numbered unless the stream was closed or the transport failed; then it is as `AwaitResponse` says, and after a failure the client is told nothing. |
| Client.Connection.DownlinkStep | src/olcrtc/client.rs:247-262 | Waits for bytes or a close, takes all that is readable, writes some more of the rest (a `write_all` may take any number of steps), and stops when the stream is closed or the client takes no more; the bytes written are always the first of those taken. |
| Client.Connection.RunPumps | src/olcrtc/client.rs:140-147 | Both invariants hold after any steps of the two pumps in any order. It is over exactly when one has stopped; the uplink has after at most three turns a byte of input and one more, and until then so many turns of the downlink as bytes were delivered, and four, bring those to the client. |
| Client.Connection.Cancel | src/olcrtc/client.rs:143-146 | When the other pump stops during a send, the uplink is dropped in the middle of it: the transport takes or loses the frame in flight, and took all before it. |
| Client.Connection.Serve | src/olcrtc/client.rs:135-148 | From the opened stream on: over exactly when the setup failed or a pump stopped, both invariants until then, and at the end the data frames and the close frame. |
| Client.Connection.Close | src/olcrtc/client.rs:147 | What was handed to the transport for the stream are the frames of the numbered chunks, all taken but perhaps the last, then exactly one close frame. The chunks are a prefix of the request followed by the client's own bytes, and all of that if the uplink came to the end of the input on an open stream and no frame was refused. |
| Client.Connection.HandleSocks5 | src/olcrtc/client.rs:130-149 | The whole connection: it gets a stream exactly if greeting and request can be read, the greeting answered and an id is free; without it sends no frame. The setup fails only if a frame was refused, the client cannot be answered, the response does not begin with 0, or nothing was delivered. It is over exactly when the setup failed or a pump stopped, and surely after enough turns of the uplink; then it has sent the data frames and one close frame. At every point the peer sees a prefix of the client's bytes. |
| Engine.StepsAreAtomic | src/engine.rs:114-249 | The steps of a start or stop, run without interruption, amount to one atomic action. |
| Engine.EngineLinearizes | src/engine.rs:367-421 | Over every interleaving of starts and stops, whenever the lock is free, engine and results are those of the finished commands one after the other, and a stats task exists exactly when a child is held. |
| Engine.AtMostOneChild | src/engine.rs:122-235 | At every point of every interleaving at most one core process is held and at most one stats task polls. |
| Engine.OlcrtcLeftBehindExactly | src/engine.rs:390-403 | After any commands that leave no child, an OLC RTC client is still stored, on a given port, if and only if the last stop that found a child timed out and the last start that came up was for that port. |
| Engine.PortBlockedUntilReplaced | src/engine.rs:153-160 | Such a client on a port other than 0 makes every start for its port fail, whatever happens otherwise, until some start has come up. |
| Plugin.SingBoxEngine.StartDesktop | src/engine.rs:114-249 | The method performs the atomic start for every fate of its environment and keeps the engine consistent. |
| Plugin.SingBoxEngine.StopDesktop | src/engine.rs:366-421 | The method performs the atomic stop for every fate; the child is gone afterwards in all of them. |
| Plugin.SingBoxEngine.StartStatsPolling | src/engine.rs:450-500 | Aborts the old stats task, if any, and stores a new one. |
| Plugin.SingBoxEngine.StopStatsPolling | src/engine.rs:501-510 | Takes and aborts the stats task, if any. |
| Plugin.ConnectedMeansChild | src/commands.rs:5-66 | After every run of non-overlapping commands, failures included, the phase is `Connected` if and only if a child is held, and it is never `Connecting`. |
| Plugin.EngineAfter | src/commands.rs:10-28 | The engine after any such run is the one after the commands that were not refused. |
| Plugin.ConnectPossibleExactly | src/commands.rs:10-35 | After every such run, a `connect` that nothing else prevents ends in `Connected` if and only if the plugin is connected already or its OLC RTC port, if not 0, was not left taken by a stop that timed out. |
| Overlap.PairExactly | src/commands.rs:10-65 | For every interleaving of one connect and one disconnect, from any consistent engine and for every outcome, they agree if and only if the start did not come up or the command that acted last also wrote last. |
| Overlap.AgreementExactly | src/commands.rs:10-65 | Over every run of any number of overlapping commands, once none is in progress, phase and engine agree if and only if the last write of the phase reports what the last engine action left. |
| Overlap.SameCommandAgrees | src/commands.rs:10-65 | In particular if one command did both, unless it was a start that found a child. |
| Overlap.ConnectedWithoutChild | src/commands.rs:24-66 | A run from the start that ends in `Connected` without a child. |
| Overlap.DisconnectedWithChild | src/commands.rs:12-65 | A run from the start that ends in `Disconnected` with a child held. |
| Plugin.VpnState.Connect | src/commands.rs:5-47 | The method performs the phase changes around the engine call, and is refused while connected or connecting. |
| Plugin.VpnState.Disconnect | src/commands.rs:50-66 | The same for `disconnect`; a failed stop leaves the phase `Disconnecting`. |
| Text.TrimKeeps | src/protocols.rs:45-50 | Trimming keeps every character that is not white space and leaves nothing exactly of blank strings. |
| Text.HexKeyExactly | src/olcrtc/mod.rs:45 | The length-in-bytes and all-hex test accepts exactly the strings of 64 hexadecimal digits, and those are not blank. |
| Text.ValueOfDecimal | src/config.rs:164 | Printed indices read back as their numbers and start with a digit. |
| Profiles.Validate | src/protocols.rs:41-151 | The errors are exactly the faults of the profile and the warnings exactly those that apply; it is valid exactly without faults. |
| Profiles.CommonFaults | src/protocols.rs:45-53 | Exactly the faults of name, server and port. |
| Profiles.ProtocolFaults | src/protocols.rs:55-132 | Exactly the faults of each protocol's own fields. |
| Profiles.OlcRtcFaults | src/protocols.rs:108-131 | Exactly the faults of the shared key and the provider. |
| Config.Ipv4OnlyExactly | src/config.rs:522-529 | Keeps exactly the trimmed entries that are neither blank nor contain a colon. |
| Config.FromProfileExactly | src/olcrtc/mod.rs:27-60 | On valid OLC RTC profiles the settings are built if and only if the effective key has 64 hexadecimal digits. |
| Config.OutboundExactly | src/config.rs:325-442 | On valid profiles the outbound is built if and only if WireGuard has an address that is not blank and has no colon, and OLC RTC an effective key of 64 hexadecimal digits. |
| Config.NoIpv4Fails | src/config.rs:363-368 | A WireGuard profile with any addresses is valid, and fails to generate if none is an IPv4 one. |
| Config.HiddenKeyFails | src/olcrtc/mod.rs:42-49 | A valid OLC RTC profile fails to generate for every extra `key` that is neither blank nor a 64-digit key. |
| Config.HiddenKeyExists | src/olcrtc/mod.rs:42-49 | There are such a profile and such a key. |
| Config.ImportedProfilesGenerate | src/import.rs:33-125 | Every profile that the URI import produces and validation accepts meets those two conditions. |
| Config.OutboundIsProxy | src/config.rs:325-493 | Every outbound carries the tag `proxy`, whatever TLS and transport settings are written into it. |
| Routing.DnsTagsDiffer | src/config.rs:143-179 | Tags of different positions differ, and none is the bootstrap tag. |
| Routing.DnsDefined | src/config.rs:137-185 | For every upstream list each DNS tag is defined exactly once, `dns-0` and the bootstrap tag among them. |
| Routing.CommonRules | src/config.rs:201-258 | For every bypass list the common rules stand in the order of `Routing.Ordered` and route only directly or to the proxy. |
| Routing.RouteRules | src/config.rs:196-291 | That order is kept; on mobile platforms DNS upstreams go direct first; OLC RTC alone has the signalling rule, and its rules stand behind the rule for everything else. |
| Routing.AssembledIsClosed | src/config.rs:65-94 | With these parts, every detour, resolver, final and rule outbound is a tag that is defined exactly once. |
| Routing.GenerateSingBoxConfig | src/config.rs:20-95 | Generation succeeds if and only if the profile is valid and meets the two conditions; the result is reference-closed, its DNS servers ask exactly the usable upstreams in order, and its rules are ordered. |
| Decoders.DecodeHex32 | src/olcrtc/crypto.rs:46-60 | On every text: the 32 bytes whose digit pairs it spells, an abort exactly if it has 64 bytes and two of them behind readable pairs end inside a character, and an error otherwise. |
| Decoders.AcceptedKeysDecode | src/olcrtc/mod.rs:42-49 | Every key that the OLC RTC settings accept has a decoding and no cut character. |
| Decoders.HexInverse | src/olcrtc/crypto.rs:46-60 | Decoding inverts lower- and upper-case hexadecimal text of every 32-byte key (section 8 of RFC 4648). |
| Decoders.DecodeStandardExactly | src/import.rs:306-308 | The strict decoder yields a byte string on exactly one text, its padded standard encoding (section 4 of RFC 4648). |
| Decoders.EncodePadded | src/import.rs:302-305 | The padding appended by length modulo 4 turns every unpadded encoding into the padded one. |
| Decoders.EncodeReplaced | src/import.rs:301 | Replacing the two URL-safe symbols turns every URL-safe encoding into the standard one. |
| Decoders.Base64Inverse | src/import.rs:300-309 | `decode_base64` returns every byte string from its standard and URL-safe encodings, padded or not (sections 4 and 5 of RFC 4648). |

## Left out

- Mux.Multiplexer.OpenStream: without a vacant id the source never returns and keeps the lock; the model stops after one whole round with the result `None`.
- Mux.Multiplexer.SendData: speaks of an undisturbed call; other calls and frames between two chunks, and between a number and its send, are covered by `Issuing.NumbersIssued` and by `Client.Connection.NumberChunk` and `Client.Connection.CompleteSend`.
- Delivery.PrefixDelivery: excludes data frames forged under the sender's own client id, the frames to the sender after which it fails (exactly those of `Restarts.HarmlessExactly`), and the copies after which it fails (those of `Copies.SafeCopyExactly`, on streams of 2^32 chunks or more only).
- Copies.SafeCopyExactly: says nothing of streams on which the sender has closed its record or has none, where nothing more can be numbered.
- Displacement.OrderIndependence: on streams of 2^32 chunks or more it speaks only of runs in which no frame is taken for another, as does Displacement.BoundedDisplacementDelivers.
- Issuing.NothingAfterClose: excludes replacement and removal of the record, which reopen the stream (`Table.ReopenedExactly`).
- Wakeup.NoLostWakeup: one waiter per stream, which is how the client uses the multiplexer; several tasks waiting on one stream are not modelled.
- Client.Connection.HandleSocks5: the record of its stream may be fed and closed by others at any time but is neither replaced nor removed by another client or a reset, and nothing was numbered on its stream before; the client's socket gives a fixed input and takes a fixed number of bytes, in pieces of any size.
- Engine.PortBlockedUntilReplaced: the endpoints of two OLC RTC clients are compared by port and not by host, and a client that was stopped or dropped is taken to give its port back at once.
- The cipher: packets that do not decrypt are lost packets of the channel; the nonce layout of `encrypt` and `decrypt` is not modelled.
- The WB Stream transport: an arbitrary lossy, duplicating and reordering channel, and sends that may fail.
- Time: the 30 s setup timeout and the kill timeout are nondeterministic outcomes; `select!` is an arbitrary interleaving that ends when either side stops.
- The accept loop: every connection is modelled on its own; what the others do to the table they share is `Tunnel.OthersDisturbRun` and `Runs.RunIsolated`.
- Process spawning, readiness probing, cleanup, the job object's own behaviour, log piping and the stats HTTP client: each start and stop takes a fate parameter that decides how its environment answers.
- The macOS, Android and iOS engines, and the profile id, message and events of the connection status.
- URL, JSON, UUID and UTF-8 libraries, `percent_decode`, number parsing and address printing: parsed values and functions are parameters.
- The VMess and Shadowsocks importers, `list_protocols`, the `spiderX` setting that no generated configuration uses, and the log, TUN and experimental sections of the configuration: constants and plumbing.
- The meaning of routing rules and outbounds to sing-box: the order of the rules is proved, not its effect.
- Error texts: error values keep only their kind.

/** One SOCKS5 connection: the handshake, the setup of the tunnel and the two pumps, step by step. */
module Client {
  import opened Words
  import opened Sequences
  import opened Frames
  import opened Streams
  import opened Table
  import opened Mux
  import opened Socks
  import opened Tunnel
  import Delivery

  /** How many turns of a schedule belong to the uplink (`true`) or the downlink. */
  function Turns(schedule: seq<bool>, up: bool): nat {
    if schedule == [] then 0 else Turns(schedule[1..], up) + if schedule[0] == up then 1 else 0
  }

  class Connection {
    const mux: Multiplexer
    const socket: Socket
    var sid: u16
    var live: bool
    var setup: Setup
    var uplinkDone: bool
    var failed: bool                          // the transport refused a data frame
    var dropped: bool                         // chunks were dropped because the stream was closed
    var pending: seq<seq<byte>>               // chunks of the current send_data call without a number
    var inFlight: Option<seq<byte>>           // the frame whose send is being awaited
    var downlink: Downlink
    var response: seq<byte>                   // bytes consumed by setup_tunnel
    ghost const peer: Delivery.Config
    ghost var system: Delivery.System         // this stream between the multiplexer, the channel and the peer
    ghost var started: nat                    // frames handed to the transport before the stream was opened
    ghost var request: seq<byte>              // the connect request text
    ghost var from: nat                       // where the client's own bytes begin
    ghost var delivered: seq<byte>            // bytes ever made readable on `sid`
    ghost var taken: seq<byte>                // bytes taken by pump_from_mux
    ghost var written: seq<byte>              // bytes pump_from_mux wrote to the socket

    constructor (mux: Multiplexer, input: seq<byte>, room: nat, ghost peer: Delivery.Config)
      requires peer.sender == mux.clientId
      ensures this.mux == mux && fresh(socket) && socket.input == input && socket.room == room
      ensures New()
    {
      this.mux, this.peer := mux, peer;
      socket := new Socket(input, room);
      sid, live, setup, uplinkDone, failed, dropped := 0, false, NotTried, false, false, false;
      pending, inFlight, downlink, response := [], None, Waiting, [];
      system := Delivery.Init;
      started, request, from, delivered, taken, written := 0, [], 0, [], [], [];
    }

    ghost predicate New()
      reads this, socket
    {
      && socket.at == 0 && socket.output == [] && peer.sender == mux.clientId
      && Unused()
    }

    ghost predicate Unused()
      reads this
    {
      && !live && setup == NotTried && !uplinkDone && !failed && !dropped && inFlight == None && downlink == Waiting
      && delivered == [] && response == [] && taken == [] && written == []
    }

    ghost predicate SomeIdFree()
      reads mux`streams
    {
      exists free: u16 :: free != 0 && free !in mux.streams
    }

    /** The stream has a record, and the peer's side is as the invariant of the channel has it. */
    ghost predicate Open()
      reads this`sid, this`system, mux`streams
    {
      sid in mux.streams && Mirrors(peer, system, mux.clientId, sid, mux.streams[sid])
    }

    ghost function Record(): Stream
      reads this`sid, mux`streams
      requires sid in mux.streams
    {
      mux.streams[sid]
    }

    /** The chunks that were given a number. */
    ghost function Payloads(): seq<seq<byte>>
      reads this`sid, this`system
    {
      Delivery.Issued(system, sid)
    }

    /** Nothing that was handed to the transport is forgotten. */
    ghost predicate Begun()
      reads this`started, mux`log
    {
      started <= |mux.log|
    }

    /** What was handed to the transport for the stream since it was opened. */
    ghost function Wire(): seq<Sending>
      reads this`sid, this`started, mux`log
      requires Begun()
    {
      OfStream(mux.log[started..], sid)
    }

    /** What the client means to have sent so far. */
    ghost function Intended(): seq<byte>
      reads this`request, this`from, socket`at
      requires from <= socket.at <= |socket.input|
    {
      request + socket.input[from..socket.at]
    }

    ghost predicate UplinkOk()
      reads this`sid, this`system, this`started, this`request, this`from, this`pending, this`inFlight,
            this`uplinkDone, this`failed, this`dropped, socket`at, mux`streams, mux`log
    {
      && Open() && Begun()
      && from <= socket.at <= |socket.input|
      && Sized(Payloads()) && Sized(pending)
      && OnTheWire(mux.clientId, sid, Payloads(), Wire(), inFlight, failed)
      && FromClient(Payloads(), pending, Intended(), dropped)
      && (dropped ==> Record().closed)
      && (if failed then uplinkDone else uplinkDone ==> AllSent())
    }

    /** The client's bytes have all been read and nothing is left to send. */
    ghost predicate AllSent()
      reads this`pending, this`inFlight, socket`at
    {
      pending == [] && inFlight == None && socket.at == |socket.input|
    }

    ghost predicate DownlinkOk()
      reads this`sid, this`system, this`started, this`response, this`taken, this`written, this`delivered, this`downlink,
            mux`streams, mux`log, socket`output
    {
      && Open() && Begun()
      && Conserved(response, taken, Record().recvBuf, delivered)
      && Passed(taken, written, downlink, |socket.output| == socket.room)
    }

    ghost predicate OutputOk()
      reads this`setup, this`response, this`taken, this`written, socket`output
    {
      |socket.output| <= socket.room && Answered(setup, socket.output, socket.room, response, taken, written)
    }

    /** What holds at every point of an accepted connection that is not over. */
    ghost predicate Valid()
      reads this`sid, this`system, this`started, this`request, this`from, this`pending, this`inFlight, this`uplinkDone,
            this`failed, this`dropped, this`response, this`taken, this`written, this`delivered, this`downlink, this`setup,
            mux`streams, mux`log, socket
    {
      UplinkOk() && DownlinkOk() && OutputOk()
    }

    /** What the peer has read on the stream and can read now is a prefix of the request followed by the
        client's own bytes. */
    ghost predicate PeerSees()
      reads this`sid, this`system, this`request, this`from
    {
      from <= |socket.input| && Heard(peer, system, sid) <= request + socket.input[from..]
    }

    lemma PeerSeesClient()
      requires Open() && from <= |socket.input| && Concat(Payloads()) <= request + socket.input[from..]
      ensures PeerSees()
    {
      PeerSeesPrefix(peer, system, sid, [], request + socket.input[from..], true);
    }

    /** So it is as long as the uplink invariant holds, and when the connection is over. */
    lemma PeerSeesAlways(sent: bool)
      requires UplinkOk() || Closed(sent)
      ensures PeerSees()
    {
      if UplinkOk() {
        assert Intended() <= request + socket.input[from..];
      }
      PeerSeesClient();
    }

    // ----- what others do in between

    /** Any run of operations of other tasks and of frames that leave the record in place. */
    method OthersAct() returns (ghost arrived: seq<byte>)
      requires Open()
      modifies mux`streams, mux`nextId, mux`serials, mux`permits, this`delivered, this`system
      ensures Open() && Payloads() == old(Payloads())
      ensures Disturbs(old(Record()), Record(), arrived) && delivered == old(delivered) + arrived
    {
      arrived := [];
      var ops: seq<Op> := *;
      if AllElsewhere(mux.clientId, mux.streams, sid, ops) {
        arrived := OthersDisturbRun(mux.clientId, mux.streams, sid, ops);
        var after := Run(mux.clientId, mux.streams, ops);
        ReflectKeeps(peer, system, mux.clientId, sid, mux.streams[sid], after[sid]);
        system := Reflect(system, sid, after[sid]);
        mux.streams := after;
      }
      mux.nextId, mux.serials, mux.permits := *, *, *;
      delivered := delivered + arrived;
    }

    /** Frames of other streams are handed to the transport. */
    method OthersSend()
      requires Begun()
      modifies mux`log
      ensures Begun() && Wire() == old(Wire())
    {
      var more: seq<Sending> := *;
      if OfStream(more, sid) == [] {
        WireGrows(mux.log, more, started, sid);
        mux.log := mux.log + more;
      }
    }

    /** The channel and the peer go on. */
    ghost method PeerActs()
      requires Open()
      modifies this`system
      ensures Open() && Payloads() == old(Payloads())
    {
      var after: Delivery.System := *;
      if FarMoves(peer, system, after) {
        FarKeeps(peer, system, after, mux.clientId, sid, Record());
        system := after;
      }
    }

    /** Whatever happens while this task awaits. */
    method Interfere() returns (ghost arrived: seq<byte>)
      requires Open() && Begun()
      modifies mux, this`delivered, this`system
      ensures Open() && Begun() && Wire() == old(Wire()) && Payloads() == old(Payloads())
      ensures Disturbs(old(Record()), Record(), arrived) && delivered == old(delivered) + arrived
    {
      arrived := OthersAct();
      OthersSend();
      PeerActs();
    }

    /** The same as the two directions see it. */
    method Yield()
      requires Valid()
      modifies mux, this`delivered, this`system
      ensures Valid()
      ensures Wire() == old(Wire()) && Payloads() == old(Payloads()) && old(delivered) <= delivered
      ensures old(Record()).recvBuf <= Record().recvBuf && (old(Record()).closed ==> Record().closed)
    {
      ghost var arrived := Interfere();
      assert response + taken + Record().recvBuf == old(delivered) + arrived;
    }

    // ----- single operations on the stream

    /** Hands a frame of the stream to the transport. */
    method Transmit(frame: seq<byte>) returns (ok: bool)
      requires Begun() && OnStream(frame, sid)
      modifies mux`log
      ensures Begun() && Wire() == old(Wire()) + [Sending(frame, ok)]
    {
      ghost var before := mux.log;
      ok := mux.Transmit(frame);
      WireGrowsByOne(before, Sending(frame, ok), started, sid);
    }

    /** Whether `wait_for_data` returns now. */
    method Ready() returns (ready: bool)
      requires Open()
      modifies mux`streams, mux`serials
      ensures mux.streams == old(mux.streams)
      ensures ready <==> Record().recvBuf != [] || Record().closed
    {
      var waitOn := mux.WaitSection(sid);
      ready := waitOn == None;
    }

    method Take() returns (data: seq<byte>)
      requires Open()
      modifies mux`streams, this`system
      ensures Open() && Payloads() == old(Payloads())
      ensures data == old(Record()).recvBuf && Record() == old(Record()).(recvBuf := [])
      ensures old(UplinkOk()) ==> UplinkOk()
    {
      ghost var before := Record();
      data := mux.ReadStream(sid);
      ReflectKeeps(peer, system, mux.clientId, sid, before, Record());
      system := Reflect(system, sid, Record());
    }

    /** A number for this chunk, or nothing if the stream is closed. */
    method NextNumber(chunk: seq<byte>) returns (sequence: Option<u32>)
      requires Open() && 0 < |chunk| <= CHUNK_SIZE
      modifies mux`streams, this`system
      ensures Open() && Record().recvBuf == old(Record()).recvBuf && Record().closed == old(Record()).closed
      ensures old(Record()).closed && old(UplinkOk()) ==> UplinkOk()
      ensures if old(Record()).closed then sequence == None && Payloads() == old(Payloads())
              else sequence == Some(Low32(|old(Payloads())|)) && Payloads() == old(Payloads()) + [chunk]
    {
      ghost var before := Record();
      sequence := mux.IssueSequence(sid);
      if sequence.Some? {
        IssueMirrored(peer, system, mux.clientId, sid, before, chunk);
        system := Delivery.Next(peer, system, Delivery.SenderIssues(sid, chunk));
      }
    }

    method CloseRecord() returns (sent: bool)
      requires Open() && Begun()
      modifies mux`streams, mux`permits, mux`log, this`system
      ensures Open() && Begun() && Record() == old(Record()).(closed := true) && Payloads() == old(Payloads())
      ensures Wire() == old(Wire()) + [Sending(CloseFrame(mux.clientId, sid), sent)]
    {
      ghost var before, log := Record(), mux.log;
      sent := mux.CloseStream(sid);
      BuiltOnStream(mux.clientId, sid, 0, [0]);
      WireGrowsByOne(log, Sending(CloseFrame(mux.clientId, sid), sent), started, sid);
      CloseMirrored(peer, system, mux.clientId, sid, before);
      system := Delivery.Next(peer, system, Delivery.SenderCloses(sid));
    }

    // ----- the uplink

    /** The lock section of one loop turn of `send_data`: the first pending chunk gets its number, or
        the rest is dropped because the stream is closed. The lock is given back before the send. */
    method NumberChunk()
      requires Valid() && !uplinkDone && inFlight == None && pending != []
      modifies mux, this`delivered, this`system, this`pending, this`inFlight, this`dropped
      ensures Valid() && Wire() == old(Wire()) && old(delivered) <= delivered
      ensures Numbered(old(Payloads()), old(pending)) && dropped == (old(dropped) || inFlight == None)
    {
      Yield();
      NumberNow();
    }

    /** The lock section itself; the downlink does not notice it. */
    method NumberNow()
      requires Valid() && !uplinkDone && inFlight == None && pending != []
      modifies mux`streams, this`system, this`pending, this`inFlight, this`dropped
      ensures Valid()
      ensures Numbered(old(Payloads()), old(pending)) && dropped == (old(dropped) || inFlight == None)
    {
      NumberFirst();
    }

    /** The same as the uplink sees it. */
    method NumberFirst()
      requires UplinkOk() && !uplinkDone && inFlight == None && pending != []
      modifies mux`streams, this`system, this`pending, this`inFlight, this`dropped
      ensures UplinkOk() && Record().recvBuf == old(Record()).recvBuf
      ensures Numbered(old(Payloads()), old(pending)) && dropped == (old(dropped) || inFlight == None)
    {
      ghost var before := Payloads();
      var sequence := NextNumber(pending[0]);
      if sequence == None {
        DropRest();
      } else {
        PutInFlight(sequence.value, before);
      }
    }

    method DropRest()
      requires UplinkOk() && !uplinkDone && inFlight == None && Record().closed
      modifies this`pending, this`dropped
      ensures UplinkOk() && pending == [] && dropped
    {
      pending, dropped := [], true;
    }

    /** The first pending chunk, which was just given the number `sequence`. */
    method PutInFlight(sequence: u32, ghost before: seq<seq<byte>>)
      requires Open() && Begun() && !uplinkDone && !failed && !dropped && inFlight == None && pending != []
      requires from <= socket.at <= |socket.input|
      requires Payloads() == before + [pending[0]] && sequence == Low32(|before|)
      requires Sized(before) && Sized(pending)
      requires OnTheWire(mux.clientId, sid, before, Wire(), None, false) && FromClient(before, pending, Intended(), false)
      modifies this`pending, this`inFlight
      ensures UplinkOk() && inFlight.Some? && pending == old(pending)[1..]
    {
      NumberKeepsUplink(mux.clientId, sid, before, pending, Wire(), Intended(), false);
      inFlight := Some(DataFrame(mux.clientId, sid, sequence, pending[0]));
      pending := pending[1..];
    }

    /** The awaited send of one loop turn completes; if it failed, `send_data` and the uplink end. */
    method CompleteSend()
      requires Valid() && inFlight.Some?
      modifies mux, this`delivered, this`system, this`inFlight, this`uplinkDone, this`failed
      ensures Valid() && Payloads() == old(Payloads()) && old(delivered) <= delivered
      ensures uplinkDone == failed && Sent(old(inFlight).value, old(Wire()))
    {
      Yield();
      SendNow();
    }

    /** The end of the send, with nothing in between. */
    method SendNow()
      requires Valid() && inFlight.Some?
      modifies mux`log, this`inFlight, this`uplinkDone, this`failed
      ensures Valid() && uplinkDone == failed && Sent(old(inFlight).value, old(Wire()))
    {
      HandOver();
      uplinkDone := failed;
    }

    /** The transport takes or refuses the frame in flight. */
    method HandOver()
      requires Open() && Begun() && Sized(Payloads()) && inFlight.Some?
      requires OnTheWire(mux.clientId, sid, Payloads(), Wire(), inFlight, failed)
      modifies mux`log, this`inFlight, this`failed
      ensures Begun() && inFlight == None && Wire() == old(Wire()) + [Sending(old(inFlight).value, !failed)]
      ensures OnTheWire(mux.clientId, sid, Payloads(), Wire(), None, failed)
    {
      ghost var wire := Wire();
      InFlightOnStream(mux.clientId, sid, Payloads(), wire, inFlight.value);
      var ok := Transmit(inFlight.value);
      ArrivalKeepsUplink(mux.clientId, sid, Payloads(), wire, inFlight.value, ok);
      inFlight, failed := None, !ok;
    }

    /** What is left to do of the current `send_data` call: two steps a chunk. */
    ghost function Unsent(): nat
      reads this`pending, this`inFlight
    {
      2 * |pending| + if inFlight.Some? then 1 else 0
    }

    /** Half a turn of the loop of `send_data`: a number, or the send it awaits. */
    method SendStep()
      requires Valid() && !uplinkDone && Unsent() > 0
      modifies mux, this`delivered, this`system, this`pending, this`inFlight, this`dropped, this`uplinkDone, this`failed
      ensures Valid() && Unsent() < old(Unsent()) && uplinkDone == failed
      ensures old(Payloads()) <= Payloads() && (old(dropped) ==> dropped) && old(delivered) <= delivered
      ensures if old(inFlight).Some? then Sent(old(inFlight).value, old(Wire())) && Payloads() == old(Payloads())
              else Numbered(old(Payloads()), old(pending)) && Wire() == old(Wire()) && !uplinkDone
    {
      if inFlight.Some? {
        CompleteSend();
      } else {
        NumberChunk();
      }
    }

    /** The frame in flight was handed over; the uplink ended if it was refused. */
    ghost predicate Sent(frame: seq<byte>, before: seq<Sending>)
      reads this`sid, this`started, this`inFlight, this`failed, mux`log
    {
      Begun() && inFlight == None && Wire() == before + [Sending(frame, !failed)]
    }

    /** The next chunk got its number, or the rest was dropped because the stream is closed. */
    ghost predicate Numbered(before: seq<seq<byte>>, waiting: seq<seq<byte>>)
      reads this`sid, this`system, this`pending, this`inFlight, this`dropped, mux`streams
    {
      && waiting != []
      && if inFlight.Some? then Payloads() == before + [waiting[0]] && pending == waiting[1..]
         else Payloads() == before && pending == [] && dropped && Open() && Record().closed
    }

    /** The chunks of the bytes that were read from position `start` on are pending, or the uplink ended
        because there are no more. */
    ghost predicate HasRead(start: nat)
      reads this`pending, this`uplinkDone, socket`at
    {
      && start <= socket.at <= |socket.input|
      && pending == Chunks(socket.input[start..socket.at])
      && (uplinkDone <==> start == |socket.input|) && (uplinkDone <==> start == socket.at)
    }

    /** How many steps the uplink can still make. */
    ghost function Left(): nat
      reads this`pending, this`inFlight, this`uplinkDone, socket`at
      requires socket.at <= |socket.input|
    {
      if uplinkDone then 0 else 3 * (|socket.input| - socket.at) + Unsent() + 1
    }

    /** One step of `pump_to_mux`: half a turn of the current `send_data` call, or the next read. */
    method UplinkStep()
      requires Valid() && !uplinkDone
      modifies mux, this`delivered, this`system, this`pending, this`inFlight, this`dropped, this`uplinkDone, this`failed,
               socket`at
      ensures Valid() && Left() < old(Left())
      ensures old(Payloads()) <= Payloads() && (old(dropped) ==> dropped) && old(delivered) <= delivered
      ensures old(inFlight).Some? ==> Sent(old(inFlight).value, old(Wire())) && Payloads() == old(Payloads())
      ensures old(inFlight) == None && old(pending) != [] ==>
                Numbered(old(Payloads()), old(pending)) && Wire() == old(Wire())
      ensures old(inFlight) == None && old(pending) == [] ==>
                HasRead(old(socket.at)) && Wire() == old(Wire()) && Payloads() == old(Payloads())
      ensures old(inFlight).Some? || old(pending) != [] ==> socket.at == old(socket.at) && uplinkDone == failed
    {
      if inFlight.Some? || pending != [] {
        SendStep();
      } else {
        ReadStep();
      }
    }

    /** The next read from the client. */
    method ReadStep()
      requires Valid() && !uplinkDone && inFlight == None && pending == []
      modifies this`pending, this`uplinkDone, socket`at
      ensures Valid() && HasRead(old(socket.at)) && Left() < old(Left())
    {
      ReadMore();
    }

    /** The same as the uplink sees it. */
    method ReadMore()
      requires UplinkOk() && socket.Valid() && !uplinkDone && inFlight == None && pending == []
      modifies this`pending, this`uplinkDone, socket`at
      ensures UplinkOk() && HasRead(old(socket.at)) && Left() < old(Left())
    {
      ghost var intended := Intended();
      var data := socket.Read(READ_BUFFER);
      assert Intended() == intended + data;
      NextRead(Payloads(), intended, data, dropped);
      Queue(data);
    }

    /** The chunks of what was just read are pending; without any the uplink is over. */
    method Queue(data: seq<byte>)
      requires Open() && Begun() && Sized(Payloads()) && !failed && (dropped ==> Record().closed)
      requires from <= socket.at <= |socket.input| && (data == [] ==> socket.at == |socket.input|)
      requires OnTheWire(mux.clientId, sid, Payloads(), Wire(), None, failed) && inFlight == None
      requires FromClient(Payloads(), Chunks(data), Intended(), dropped) && Sized(Chunks(data))
      modifies this`pending, this`uplinkDone
      ensures UplinkOk() && pending == Chunks(data) && (uplinkDone <==> data == [])
    {
      pending, uplinkDone := Chunks(data), data == [];
    }

    // ----- the setup

    /** `send_data` of the request text, to its end. */
    method SendRequest()
      requires Valid() && !uplinkDone && request == Intended()
      modifies mux, this`delivered, this`system, this`pending, this`inFlight, this`dropped, this`uplinkDone, this`failed
      ensures Valid() && inFlight == None && uplinkDone == failed
      ensures !failed ==> pending == [] && Requested()
    {
      while (pending != [] || inFlight.Some?) && !uplinkDone
        invariant Valid() && uplinkDone == failed
        decreases Unsent()
      {
        SendStep();
      }
      AllNumbered(Payloads(), pending, request);
    }

    lemma AllNumbered(payloads: seq<seq<byte>>, rest: seq<seq<byte>>, text: seq<byte>)
      requires FromClient(payloads, rest, text, dropped)
      ensures rest == [] ==> dropped || text <= Concat(payloads)
    {
    }

    /** All of the request was numbered, unless the stream was closed before. */
    ghost predicate Requested()
      reads this`sid, this`system, this`dropped, this`request
    {
      dropped || request <= Concat(Payloads())
    }

    lemma StillRequested(before: seq<seq<byte>>, was: bool)
      requires before <= Payloads() && (was ==> dropped) && (was || request <= Concat(before))
      ensures Requested()
    {
      ConcatPrefix(before, Payloads());
    }

    /** Why the setup ends as it does, and what the client is told. It fails if the transport refused a
        data frame: then the client is told nothing. Otherwise it fails only if the client cannot be
        answered, if the response does not begin with 0, or if there is none: then nothing was delivered. */
    ghost predicate Decided()
      reads this`setup, this`failed, this`response, this`delivered, socket`output
    {
      match setup
      case NotTried => false
      case Established => Good(response) && socket.room >= 12
      case Refused =>
        if failed then socket.output == [5, 0]
        else
          && (Good(response) ==> socket.room < 12)
          && (response == [] ==> delivered == [])
          && socket.output == Replied()
    }

    /** What the client gets to see of the reply. */
    ghost function Replied(): seq<byte>
      reads this`response
    {
      Fit([5, 0] + if Good(response) then REPLY_SUCCESS else REPLY_HOST_UNREACHABLE, socket.room)
    }

    /** `setup_tunnel`: a failure to send the request is passed on without an answer to the client. */
    method SetupTunnel(patience: nat) returns (ok: bool)
      requires Valid() && !uplinkDone && setup == NotTried && downlink == Waiting && response == []
      requires request == Intended()
      modifies mux, this`delivered, this`system, this`pending, this`inFlight, this`dropped, this`uplinkDone, this`failed,
               this`response, this`setup, socket`output
      ensures Valid() && Decided() && uplinkDone == failed
      ensures setup == (if ok then Established else Refused)
      ensures failed || (Requested() && inFlight == None && pending == [])
      ensures failed ==> !ok && socket.output == old(socket.output)
    {
      SendRequest();
      ok := AfterRequest(patience);
    }

    /** The rest of `setup_tunnel`. */
    method AfterRequest(patience: nat) returns (ok: bool)
      requires Valid() && setup == NotTried && downlink == Waiting && response == [] && (failed || Requested())
      modifies mux, this`delivered, this`system, this`response, this`setup, socket`output
      ensures Valid() && Decided() && setup == (if ok then Established else Refused) && (failed || Requested())
      ensures failed ==> !ok && socket.output == old(socket.output)
    {
      if failed {
        ok := GiveUp();
      } else {
        var timedOut: bool;
        ok, timedOut := AwaitResponse(patience);
      }
    }

    /** The error of `send_data` is passed on. */
    method GiveUp() returns (ok: bool)
      requires Valid() && failed && setup == NotTried
      modifies this`setup
      ensures Valid() && Decided() && setup == Refused && !ok
    {
      setup, ok := Refused, false;
    }

    /** The reply to the client's request: success only for a good response, refusal otherwise. */
    method Reply(good: bool) returns (ok: bool)
      requires Valid() && setup == NotTried
      requires good ==> Good(response)
      modifies this`setup, socket`output
      ensures Valid() && setup == (if ok then Established else Refused)
      ensures ok <==> good && socket.room >= 12
      ensures socket.output == Fit([5, 0] + if good then REPLY_SUCCESS else REPLY_HOST_UNREACHABLE, socket.room)
    {
      var whole := socket.WriteAll(if good then REPLY_SUCCESS else REPLY_HOST_UNREACHABLE);
      ok := good && whole;
      setup := if ok then Established else Refused;
    }

    /** `wait_for_data` under the timeout, which lets other tasks run at most `patience` times. */
    method AwaitReady(patience: nat) returns (timedOut: bool)
      requires Valid() && downlink == Waiting
      modifies mux, this`delivered, this`system
      ensures Valid() && Wire() == old(Wire()) && Payloads() == old(Payloads())
      ensures old(Record()).recvBuf <= Record().recvBuf && (old(Record()).closed ==> Record().closed)
      ensures timedOut <==> Record().recvBuf == [] && !Record().closed
    {
      var left := patience;
      var ready := Ready();
      while !ready && left > 0
        invariant Valid() && Wire() == old(Wire()) && Payloads() == old(Payloads())
        invariant old(Record()).recvBuf <= Record().recvBuf && (old(Record()).closed ==> Record().closed)
        invariant ready <==> Record().recvBuf != [] || Record().closed
      {
        ready := AwaitTurn();
        left := left - 1;
      }
      timedOut := !ready;
    }

    /** One more time that other tasks run before the wait is over. */
    method AwaitTurn() returns (ready: bool)
      requires Valid()
      modifies mux, this`delivered, this`system
      ensures Valid() && Wire() == old(Wire()) && Payloads() == old(Payloads())
      ensures old(Record()).recvBuf <= Record().recvBuf && (old(Record()).closed ==> Record().closed)
      ensures ready <==> Record().recvBuf != [] || Record().closed
    {
      Yield();
      ready := Ready();
    }

    /** `read_stream` of the response: all that is readable. */
    method TakeResponse()
      requires Valid() && downlink == Waiting && setup == NotTried && response == []
      modifies mux, this`delivered, this`system, this`response
      ensures Valid() && Wire() == old(Wire()) && Payloads() == old(Payloads())
      ensures old(Record()).recvBuf <= response == delivered
    {
      Yield();
      TakeNow();
    }

    /** The lock section of that `read_stream`. */
    method TakeNow()
      requires Valid() && downlink == Waiting && setup == NotTried && response == []
      modifies mux`streams, this`system, this`response
      ensures Valid() && Payloads() == old(Payloads())
      ensures response == old(Record()).recvBuf == delivered
    {
      response := Take();
    }

    /** The response, or a timeout. */
    method AwaitBytes(patience: nat) returns (timedOut: bool)
      requires Valid() && setup == NotTried && downlink == Waiting && response == []
      modifies mux, this`delivered, this`system, this`response
      ensures Valid() && Wire() == old(Wire()) && Payloads() == old(Payloads())
      ensures old(Record()).recvBuf != [] || old(Record()).closed ==> !timedOut
      ensures if timedOut then response == [] == delivered else old(Record()).recvBuf <= response == delivered
    {
      timedOut := AwaitReady(patience);
      if !timedOut {
        TakeResponse();
      }
    }

    /** The second half of `setup_tunnel`: waits for the response, takes all that is readable, and
        answers the client. */
    method AwaitResponse(patience: nat) returns (ok: bool, timedOut: bool)
      requires Valid() && setup == NotTried && downlink == Waiting && response == [] && !failed
      modifies mux, this`delivered, this`system, this`response, this`setup, socket`output
      ensures Valid() && Decided() && setup == if ok then Established else Refused
      ensures Wire() == old(Wire()) && Payloads() == old(Payloads())
      ensures old(Record()).recvBuf != [] || old(Record()).closed ==> !timedOut
      ensures if timedOut then response == [] && delivered == [] else old(Record()).recvBuf <= response
      ensures ok <==> Good(response) && socket.room >= 12
    {
      timedOut := AwaitBytes(patience);
      ok := Reply(response != [] && response[0] == 0);
    }

    // ----- the downlink

    /** One write of a `write_all`, which is over when nothing is left or no byte was written. */
    method Write(rest: seq<byte>)
      requires DownlinkOk() && OutputOk() && socket.Valid() && setup == Established
      requires downlink == Writing(rest) && rest != []
      modifies this`written, this`downlink, socket`output
      ensures DownlinkOk() && OutputOk() && Wrote(old(written), rest)
    {
      var n := socket.WriteSome(rest);
      written := written + rest[..n];
      downlink := if n == 0 then Stopped else Writing(rest[n..]);
    }

    /** Some more bytes were written, at least one unless the client takes no more. */
    ghost predicate Wrote(before: seq<byte>, rest: seq<byte>)
      reads this`written, this`downlink, socket`output
    {
      match downlink
      case Writing(left) => |left| < |rest| && written + left == before + rest && before <= written
      case Stopped => written == before && |socket.output| == socket.room
      case _ => false
    }

    /** One step of `pump_from_mux`; a `write_all` may take any number of them, with anything between. */
    method DownlinkStep()
      requires Valid() && setup == Established && !downlink.Stopped?
      modifies mux, this`delivered, this`system, this`taken, this`written, this`downlink, socket`output
      ensures Valid()
      ensures Wire() == old(Wire()) && Payloads() == old(Payloads()) && old(delivered) <= delivered
      ensures PumpedOn(old(downlink), old(Record()).recvBuf, old(taken), old(written))
    {
      ghost var readable := Record().recvBuf;
      Yield();
      PumpOn(readable);
    }

    /** The step itself, after whatever others did. */
    method PumpOn(ghost readable: seq<byte>)
      requires Valid() && setup == Established && !downlink.Stopped? && readable <= Record().recvBuf
      modifies mux`streams, mux`serials, this`system, this`taken, this`written, this`downlink, socket`output
      ensures Valid() && Payloads() == old(Payloads())
      ensures PumpedOn(old(downlink), readable, old(taken), old(written))
    {
      match downlink {
        case Waiting => WaitStep();
        case Reading => TakeStep();
        case Writing(rest) => WriteStep(rest);
        case CheckingClosed => CheckStep();
      }
    }

    /** What a step does: it goes on to read once there are bytes or the stream is closed, takes all that
        is readable, writes some of the rest, and stops when the stream is closed. */
    ghost predicate PumpedOn(at: Downlink, readable: seq<byte>, before: seq<byte>, wrote: seq<byte>)
      reads this`sid, this`taken, this`written, this`downlink, mux`streams, socket`output
    {
      sid in mux.streams &&
      match at
      case Waiting => taken == before && downlink == if Record().recvBuf != [] || Record().closed then Reading else Waiting
      case Reading => exists data :: readable <= data && taken == before + data && downlink == Writing(data)
      case Writing(rest) => taken == before && if rest == [] then downlink == CheckingClosed else Wrote(wrote, rest)
      case CheckingClosed => taken == before && downlink == if Record().closed then Stopped else Waiting
      case Stopped => false
    }

    /** `wait_for_data`. */
    method WaitStep()
      requires Valid() && downlink == Waiting && setup == Established
      modifies mux`streams, mux`serials, this`downlink
      ensures Valid() && mux.streams == old(mux.streams)
      ensures downlink == if Record().recvBuf != [] || Record().closed then Reading else Waiting
    {
      var ready := Ready();
      if ready {
        downlink := Reading;
      }
    }

    /** `read_stream`. */
    method TakeStep()
      requires Valid() && downlink == Reading && setup == Established
      modifies mux`streams, this`system, this`taken, this`downlink
      ensures Valid() && Payloads() == old(Payloads())
      ensures taken == old(taken) + old(Record()).recvBuf && downlink == Writing(old(Record()).recvBuf)
    {
      var data := Take();
      HandOn(data);
    }

    /** What was taken is to be written. */
    method HandOn(data: seq<byte>)
      requires UplinkOk() && OutputOk() && setup == Established && downlink == Reading && taken == written
      requires Conserved(response, taken + data, Record().recvBuf, delivered)
      modifies this`taken, this`downlink
      ensures Valid() && taken == old(taken) + data && downlink == Writing(data)
    {
      taken := taken + data;
      downlink := Writing(data);
    }

    /** `write_all`, one write at a time. */
    method WriteStep(rest: seq<byte>)
      requires Valid() && setup == Established && downlink == Writing(rest)
      modifies this`written, this`downlink, socket`output
      ensures Valid()
      ensures if rest == [] then downlink == CheckingClosed else Wrote(old(written), rest)
    {
      if rest == [] {
        downlink := CheckingClosed;
      } else {
        Write(rest);
      }
    }

    /** `stream_closed`. */
    method CheckStep()
      requires Valid() && downlink == CheckingClosed && setup == Established
      modifies this`downlink
      ensures Valid() && downlink == if Record().closed then Stopped else Waiting
    {
      var closed := mux.StreamClosed(sid);
      downlink := if closed then Stopped else Waiting;
    }

    // ----- both pumps

    /** One step of either pump. */
    method PumpStep(up: bool, ghost target: nat)
      requires Valid() && Requested() && |response| + target <= |delivered|
      requires setup == Established && !uplinkDone && !downlink.Stopped?
      modifies mux, this`delivered, this`system, this`taken, this`written, this`downlink,
               this`pending, this`inFlight, this`dropped, this`uplinkDone, this`failed, socket
      ensures Valid() && Requested() && |response| + target <= |delivered|
      ensures if up then Left() < old(Left()) else Left() == old(Left())
      ensures downlink.Stopped? || Due(target) == 0 || Due(target) <= old(Due(target)) - if up then 0 else 1
    {
      if up {
        UplinkTurn();
      } else {
        DownlinkTurn(target);
      }
    }

    /** Bytes that were delivered come nearer to the client with every step until they are written. */
    method DownlinkTurn(ghost target: nat)
      requires Valid() && Requested() && setup == Established && !downlink.Stopped?
      requires |response| + target <= |delivered|
      modifies mux, this`delivered, this`system, this`taken, this`written, this`downlink, socket`output
      ensures Valid() && Requested() && Left() == old(Left()) && |response| + target <= |delivered|
      ensures downlink.Stopped? || Due(target) == 0 || Due(target) < old(Due(target))
    {
      ghost var at, before, wrote, readable := downlink, taken, written, Record().recvBuf;
      DownlinkStep();
      DueFalls(target, at, before, wrote, readable);
    }

    /** How many downlink steps it takes at most until `target` of the bytes are written. */
    ghost function Due(target: nat): nat
      reads this`taken, this`written, this`downlink
    {
      DueSteps(target, |taken|, |written|, downlink)
    }

    lemma DueFalls(target: nat, at: Downlink, before: seq<byte>, wrote: seq<byte>, readable: seq<byte>)
      requires DownlinkOk() && PumpedOn(at, readable, before, wrote)
      requires Passed(before, wrote, at, false) && |response| + target <= |delivered|
      requires |response| + |before| + |readable| >= |response| + target
      ensures downlink.Stopped? || Due(target) == 0 || Due(target) < DueSteps(target, |before|, |wrote|, at)
    {
      assert |response| + |taken| + |Record().recvBuf| == |delivered|;
      match at
      case Waiting => assert Record().recvBuf == [] ==> |written| >= target;
      case Reading =>
        var data :| readable <= data && taken == before + data && downlink == Writing(data);
        assert |taken| >= target;
      case Writing(rest) =>
        if rest != [] && downlink.Writing? {
          assert |written| > |wrote|;
        }
      case _ =>
    }

    /** A turn of the uplink keeps the request in front. */
    method UplinkTurn()
      requires Valid() && Requested() && !uplinkDone
      modifies mux, this`delivered, this`system, this`pending, this`inFlight, this`dropped, this`uplinkDone, this`failed,
               socket`at
      ensures Valid() && Requested() && Left() < old(Left()) && old(delivered) <= delivered
    {
      UplinkStep();
      StillRequested(old(Payloads()), old(dropped));
    }

    /** The turns of the two pumps, until one of them stops. So many turns of the uplink end it, and so
        many of the downlink bring the first `target` bytes for the client to it. */
    method TakeTurns(schedule: seq<bool>, ghost target: nat)
      requires Valid() && setup == Established && Requested() && |response| + target <= |delivered|
      modifies mux, this`delivered, this`system, this`taken, this`written, this`downlink,
               this`pending, this`inFlight, this`dropped, this`uplinkDone, this`failed, socket
      ensures Valid() && Requested()
      ensures Turns(schedule, true) >= old(Left()) ==> uplinkDone || downlink.Stopped?
      ensures Turns(schedule, false) >= old(Due(target)) ==> uplinkDone || downlink.Stopped? || target <= |written|
    {
      var turns := schedule;
      while turns != [] && !uplinkDone && !downlink.Stopped?
        invariant Valid() && Requested() && |response| + target <= |delivered|
        invariant Turns(turns, true) - Left() >= Turns(schedule, true) - old(Left())
        invariant downlink.Stopped? || Due(target) == 0
                  || Turns(turns, false) - Due(target) >= Turns(schedule, false) - old(Due(target))
        decreases |turns|
      {
        PumpStep(turns[0], target);
        turns := turns[1..];
      }
    }

    /** The first `n` bytes that were delivered were consumed by the setup or written to the client. */
    ghost predicate Brought(n: nat)
      reads this`response, this`written
    {
      n <= |response| + |written|
    }

    /** The two pumps under `select!`: it ends when either stops. The uplink stops after so many of its
        turns; otherwise so many turns of the downlink bring to the client what was delivered before. */
    method RunPumps(schedule: seq<bool>) returns (finished: bool)
      requires Valid() && setup == Established && Requested()
      modifies mux, this`delivered, this`system, this`taken, this`written, this`downlink,
               this`pending, this`inFlight, this`dropped, this`uplinkDone, this`failed, socket
      ensures Valid() && Requested() && finished == (uplinkDone || downlink.Stopped?)
      ensures Turns(schedule, true) >= old(Left()) ==> finished
      ensures Turns(schedule, false) >= |old(delivered)| + 4 ==> finished || Brought(|old(delivered)|)
    {
      ghost var target := |taken| + |Record().recvBuf|;
      DueBound(target);
      TakeTurns(schedule, target);
      finished := uplinkDone || downlink.Stopped?;
    }

    lemma DueBound(target: nat)
      requires DownlinkOk() && target == |taken| + |Record().recvBuf|
      ensures |response| + target == |delivered| && Due(target) <= |delivered| + 4
    {
    }

    // ----- the end

    /** What is left of the uplink is cancelled: a frame whose send was being awaited may have reached
        the transport all the same. */
    method Cancel()
      requires Valid()
      modifies mux`log, this`inFlight, this`failed
      ensures Begun() && Open() && DownlinkOk() && inFlight == None && (old(inFlight) == None ==> failed == old(failed))
      ensures OnTheWire(mux.clientId, sid, Payloads(), Wire(), None, failed)
    {
      if inFlight.Some? {
        HandOver();
      }
    }

    /** `close_stream` after everything else. */
    method Close() returns (sent: bool)
      requires Valid()
      modifies mux`streams, mux`permits, mux`log, this`inFlight, this`failed, this`system
      ensures DownlinkOk() && OutputOk() && Record().closed && Payloads() == old(Payloads())
      ensures Closed(sent) && (old(inFlight) == None ==> failed == old(failed))
    {
      Settle();
      sent := CloseNow();
    }

    /** Nothing is in flight any more, and no more chunks are numbered. */
    ghost predicate Settled()
      reads this`sid, this`system, this`started, this`request, this`from, this`uplinkDone, this`failed, this`dropped,
            mux`streams, mux`log
    {
      && Open() && Begun() && from <= |socket.input|
      && OnTheWire(mux.clientId, sid, Payloads(), Wire(), None, failed)
      && Concat(Payloads()) <= request + socket.input[from..]
      && (uplinkDone && !failed && !dropped ==> Concat(Payloads()) == request + socket.input[from..])
    }

    /** The uplink is dropped. */
    method Settle()
      requires Valid()
      modifies mux`log, this`inFlight, this`failed
      ensures Settled() && DownlinkOk() && OutputOk() && (old(inFlight) == None ==> failed == old(failed))
    {
      ClientsBytes(Payloads(), pending, request, from, socket.at);
      Cancel();
    }

    /** `close_stream` itself. */
    method CloseNow() returns (sent: bool)
      requires DownlinkOk() && OutputOk() && Settled()
      modifies mux`streams, mux`permits, mux`log, this`system
      ensures DownlinkOk() && OutputOk() && Record().closed && Payloads() == old(Payloads()) && Closed(sent)
    {
      sent := CloseRecord();
    }

    lemma ClientsBytes(payloads: seq<seq<byte>>, rest: seq<seq<byte>>, text: seq<byte>, start: nat, end: nat)
      requires start <= end <= |socket.input| && FromClient(payloads, rest, text + socket.input[start..end], dropped)
      ensures Concat(payloads) <= text + socket.input[start..]
      ensures rest == [] && end == |socket.input| && !dropped ==> Concat(payloads) == text + socket.input[start..]
    {
      assert text + socket.input[start..end] <= text + socket.input[start..];
    }

    /** The connection is over: the transport was handed the frames of the numbered chunks in order (and
        took them all but perhaps the last), then one close frame and nothing else. The chunks are a
        prefix of the request followed by the client's own bytes, and all of that if the uplink came to
        the end of the input and neither the transport refused a frame nor the stream was closed. */
    ghost predicate Closed(sent: bool)
      reads this`sid, this`system, this`started, this`request, this`from, this`uplinkDone, this`failed, this`dropped,
            mux`streams, mux`log
    {
      && Open() && Begun()
      && Wire() == Handed(DataFrames(mux.clientId, sid, 0, Payloads()), !failed)
                   + [Sending(CloseFrame(mux.clientId, sid), sent)]
      && from <= |socket.input|
      && Concat(Payloads()) <= request + socket.input[from..]
      && (uplinkDone && !failed && !dropped ==> Concat(Payloads()) == request + socket.input[from..])
    }

    // ----- the connection

    /** The request that the client's bytes begin with, behind a greeting, and where it ends. */
    ghost function Hearing(utf8: seq<byte> -> bool): Option<(Request, nat)> {
      match ReadGreeting(socket.input)
      case None => None
      case Some(g) =>
        match ReadRequest(socket.input[g..], utf8)
        case None => None
        case Some(r) => Some((r, g + |RequestBytes(0, r)|))
    }

    /** Greeting and request were read off the front of the client's bytes; its own bytes follow. */
    ghost predicate Asked(requestText: Request -> seq<byte>, utf8: seq<byte> -> bool)
      reads this`request, this`from
    {
      && Hearing(utf8).Some?
      && request == requestText(Hearing(utf8).value.0) && from == Hearing(utf8).value.1
    }

    /** Both directions as they are at every point of an accepted connection. */
    ghost predicate Running(requestText: Request -> seq<byte>, utf8: seq<byte> -> bool)
      reads this, mux, socket
    {
      DownlinkOk() && OutputOk() && Asked(requestText, utf8)
    }

    /** A connection whose request was read: it is over exactly when the setup failed or a pump stopped;
        until then the invariants of both directions hold. */
    ghost predicate Served(requestText: Request -> seq<byte>, utf8: seq<byte> -> bool, finished: bool, closeSent: bool)
      reads this, mux, socket
    {
      && Running(requestText, utf8) && Decided() && PeerSees()
      && (Requested() || (setup == Refused && failed))
      && (finished <==> setup == Refused || uplinkDone || downlink.Stopped?)
      && if finished then Closed(closeSent) else UplinkOk()
    }

    /** `handle_socks5`. The pumps take the turns of `schedule`, true for the uplink, unless the
        connection is over before. It gets a stream exactly if a greeting and a request can be read and
        the greeting be answered, or else waits for ever because no stream id is free. */
    method HandleSocks5(requestText: Request -> seq<byte>, utf8: seq<byte> -> bool, patience: nat, schedule: seq<bool>)
      returns (finished: bool, closeSent: bool, hung: bool)
      requires New()
      modifies this, socket, mux
      ensures live || hung <==> Hearing(utf8).Some? && socket.room >= 2
      ensures hung ==> !live && !SomeIdFree()
      ensures !live && !hung ==> mux.streams == old(mux.streams) && mux.log == old(mux.log)
      ensures !live ==> socket.output == Greeted()
      ensures live ==> Served(requestText, utf8, finished, closeSent)
      ensures live && Turns(schedule, true) > 3 * |socket.input| ==> finished
    {
      finished, closeSent := false, false;
      hung := Begin(requestText, utf8);
      if live {
        finished, closeSent := Serve(requestText, utf8, patience, schedule);
      }
    }

    /** The request was read, the stream is open, and nothing else has happened. */
    ghost predicate Accepted(requestText: Request -> seq<byte>, utf8: seq<byte> -> bool)
      reads this, mux, socket
    {
      && Running(requestText, utf8) && UplinkOk()
      && live && !uplinkDone && setup == NotTried && downlink == Waiting && response == []
      && request == Intended()
    }

    /** What follows `open_stream`: setup, the pumps, and the close in every case. */
    method Serve(ghost requestText: Request -> seq<byte>, ghost utf8: seq<byte> -> bool, patience: nat, schedule: seq<bool>)
      returns (finished: bool, closeSent: bool)
      requires Accepted(requestText, utf8)
      modifies mux, this`delivered, this`system, this`pending, this`inFlight, this`dropped, this`uplinkDone, this`failed,
               this`response, this`setup, this`taken, this`written, this`downlink, socket
      ensures Served(requestText, utf8, finished, closeSent)
      ensures Turns(schedule, true) > 3 * |socket.input| ==> finished
    {
      finished := Carry(patience, schedule);
      closeSent := FinishIf(finished, requestText, utf8);
    }

    /** The close in every case. */
    method Finish(ghost requestText: Request -> seq<byte>, ghost utf8: seq<byte> -> bool) returns (closeSent: bool)
      requires Valid() && Asked(requestText, utf8) && Decided()
      requires if setup == Refused then inFlight == None && (failed || Requested()) else Requested()
      requires setup == Refused || uplinkDone || downlink.Stopped?
      modifies mux`streams, mux`permits, mux`log, this`inFlight, this`failed, this`system
      ensures Served(requestText, utf8, true, closeSent)
    {
      closeSent := Close();
      PeerSeesAlways(closeSent);
    }

    /** The setup and, if it succeeds, the pumps. */
    method Carry(patience: nat, schedule: seq<bool>) returns (over: bool)
      requires Valid() && !uplinkDone && setup == NotTried && downlink == Waiting && response == []
      requires request == Intended()
      modifies mux, this`delivered, this`system, this`pending, this`inFlight, this`dropped, this`uplinkDone, this`failed,
               this`response, this`setup, this`taken, this`written, this`downlink, socket
      ensures Valid() && Decided()
      ensures if setup == Refused then inFlight == None && (failed || Requested()) else Requested()
      ensures over <==> setup == Refused || uplinkDone || downlink.Stopped?
      ensures Turns(schedule, true) > 3 * |socket.input| ==> over
    {
      var ok := SetupTunnel(patience);
      over := !ok;
      if ok {
        over := PumpAll(schedule);
      }
    }

    /** The pumps right after the setup. */
    method PumpAll(schedule: seq<bool>) returns (over: bool)
      requires Valid() && setup == Established && Requested() && inFlight == None && pending == []
      modifies mux, this`delivered, this`system, this`taken, this`written, this`downlink,
               this`pending, this`inFlight, this`dropped, this`uplinkDone, this`failed, socket
      ensures Valid() && Decided() && Requested() && over == (uplinkDone || downlink.Stopped?)
      ensures Turns(schedule, true) > 3 * |socket.input| ==> over
    {
      over := RunPumps(schedule);
      EstablishedDecided();
    }

    /** The close, if it is time for it. */
    method FinishIf(over: bool, ghost requestText: Request -> seq<byte>, ghost utf8: seq<byte> -> bool)
      returns (closeSent: bool)
      requires Valid() && Asked(requestText, utf8) && Decided()
      requires if setup == Refused then inFlight == None && (failed || Requested()) else Requested()
      requires over <==> setup == Refused || uplinkDone || downlink.Stopped?
      modifies mux`streams, mux`permits, mux`log, this`inFlight, this`failed, this`system
      ensures Served(requestText, utf8, over, closeSent)
    {
      closeSent := false;
      if over {
        closeSent := Finish(requestText, utf8);
      } else {
        PeerSeesAlways(false);
      }
    }

    /** Greeting, request and `open_stream`. */
    method Begin(requestText: Request -> seq<byte>, utf8: seq<byte> -> bool) returns (hung: bool)
      requires New()
      modifies this, socket, mux
      ensures live || hung <==> Hearing(utf8).Some? && socket.room >= 2
      ensures hung ==> !live && !SomeIdFree()
      ensures !live && !hung ==> mux.streams == old(mux.streams) && mux.log == old(mux.log)
      ensures !live ==> socket.output == Greeted()
      ensures live ==> Accepted(requestText, utf8)
    {
      var r := ReadUp(utf8);
      if r == None {
        return false;
      }
      OthersGoOn();
      hung := OpenTunnel(requestText(r.value));
    }

    /** Other tasks open, use and lose streams while this connection has none. */
    method OthersGoOn()
      modifies mux
    {
      mux.streams, mux.nextId, mux.serials, mux.permits, mux.log := *, *, *, *, *;
    }

    /** The answer to the greeting, if there is one. */
    ghost function Greeted(): seq<byte> {
      if ReadGreeting(socket.input).Some? then Fit([5, 0], socket.room) else []
    }

    /** Greeting and request. */
    method ReadUp(utf8: seq<byte> -> bool) returns (r: Option<Request>)
      requires New()
      modifies socket
      ensures socket.Valid()
      ensures r.Some? <==> Hearing(utf8).Some? && socket.room >= 2
      ensures r.Some? ==> OutputOk() && Hearing(utf8) == Some((r.value, socket.at))
      ensures socket.output == Greeted()
    {
      var greeted := socket.Handshake();
      if !greeted {
        return None;
      }
      r := socket.ReceiveRequest(utf8);
    }

    /** The stream is opened once the request is known: its text is what there is to send first. */
    method OpenTunnel(text: seq<byte>) returns (hung: bool)
      requires Unused() && OutputOk() && socket.at <= |socket.input| && peer.sender == mux.clientId
      modifies this`live, this`sid, this`system, this`started, this`pending, this`request, this`from,
               mux`streams, mux`nextId, mux`serials
      ensures hung == !live && (hung ==> !SomeIdFree())
      ensures live ==> request == text && from == socket.at && Valid() && Intended() == request
    {
      hung := OpenRecord();
      if hung {
        return;
      }
      StartWith(text);
    }

    /** The connection takes up the fresh record. */
    method StartWith(text: seq<byte>)
      requires Unused() && OutputOk() && socket.at <= |socket.input|
      requires Open() && Payloads() == [] && Record() == Fresh(0, Record().notify)
      modifies this`live, this`started, this`pending, this`request, this`from
      ensures live && request == text && from == socket.at && Valid() && Intended() == request
    {
      Remember(text);
      UplinkStarts(text);
      DownlinkStarts();
    }

    method Remember(text: seq<byte>)
      modifies this`live, this`started, this`pending, this`request, this`from
      ensures live && pending == Chunks(text) && started == |mux.log| && request == text && from == socket.at
    {
      live, pending := true, Chunks(text);
      started, request, from := |mux.log|, text, socket.at;
    }

    lemma DownlinkStarts()
      requires Open() && Begun() && Record().recvBuf == []
      requires delivered == [] && response == [] && taken == [] && written == [] && downlink == Waiting
      ensures DownlinkOk()
    {
    }

    /** `open_stream`. Nothing was numbered on the stream before, whatever else the peer has heard. */
    method OpenRecord() returns (hung: bool)
      requires peer.sender == mux.clientId
      modifies this`sid, this`system, mux`streams, mux`nextId, mux`serials
      ensures hung ==> !SomeIdFree()
      ensures !hung ==> Open() && Payloads() == [] && sid != 0 && sid !in old(mux.streams)
                        && mux.streams == old(mux.streams)[sid := Fresh(0, NotifyId(sid, old(mux.serials)))]
    {
      ghost var serial := mux.serials;
      var found := mux.OpenStream();
      if found == None {
        return true;
      }
      sid, hung := found.value, false;
      ghost var before: Delivery.System := *;
      if !Unopened(peer, before, mux.clientId, sid) {
        Delivery.InitOk(peer);
        before := Delivery.Init;
      }
      OpenMirrored(peer, before, mux.clientId, sid, serial);
      system := Delivery.Next(peer, before, Delivery.SenderOther(Opened(sid, serial)));
    }

    lemma UplinkStarts(text: seq<byte>)
      requires Open() && Payloads() == [] && Record() == Fresh(0, Record().notify) && started == |mux.log|
      requires request == text && pending == Chunks(text) && from == socket.at <= |socket.input|
      requires inFlight == None && !uplinkDone && !failed && !dropped
      ensures UplinkOk() && Intended() == text
    {
      EverythingPending(text);
      NothingOnTheWire(mux.clientId, sid);
      NothingYet(text, socket.input, from, mux.log, sid);
    }

    lemma EstablishedDecided()
      requires OutputOk() && setup == Established
      ensures Decided()
    {
      assert |socket.output| == 12 + |written|;
    }
  }
}

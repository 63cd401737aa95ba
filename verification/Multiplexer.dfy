/** The multiplexer object: its methods, one lock section after the other, against `Table.Step`. */
module Mux {
  import opened Words
  import opened Sequences
  import opened Frames
  import opened Streams
  import opened Table

  datatype ResetResult = ResetSent | ResetFailed | ClientIdZero

  /** A frame handed to the transport, and whether the transport took it. */
  datatype Sending = Sending(frame: seq<byte>, accepted: bool)

  /** These frames handed over one after the other; all were taken but perhaps the last. */
  function Handed(frames: seq<seq<byte>>, lastOk: bool): seq<Sending> {
    seq(|frames|, i requires 0 <= i < |frames| => Sending(frames[i], lastOk || i < |frames| - 1))
  }

  lemma HandedSnoc(frames: seq<seq<byte>>, frame: seq<byte>, ok: bool)
    ensures Handed(frames + [frame], ok) == Handed(frames, true) + [Sending(frame, ok)]
  {
  }

  /** The frames of consecutive chunks, numbered from `start` on. */
  function DataFrames(clientId: u32, sid: u16, start: nat, chunks: seq<seq<byte>>): seq<seq<byte>> {
    seq(|chunks|, i requires 0 <= i < |chunks| => DataFrame(clientId, sid, Low32(start + i), chunks[i]))
  }

  lemma DataFramesSnoc(clientId: u32, sid: u16, start: nat, chunks: seq<seq<byte>>, n: nat)
    requires n < |chunks|
    ensures DataFrames(clientId, sid, start, chunks[..n + 1])
         == DataFrames(clientId, sid, start, chunks[..n]) + [DataFrame(clientId, sid, Low32(start + n), chunks[n])]
  {
  }

  /** The table after `n` sequence numbers were issued on one stream. */
  function IssuedTo(t: Records, sid: u16, n: nat): Records
    requires sid in t
  {
    t[sid := t[sid].(nextSendSeq := Low32(t[sid].nextSendSeq + n))]
  }

  class Multiplexer {
    const clientId: u32
    var streams: Records
    var nextId: u16
    var serials: nat            // `Notify` objects created so far
    var permits: set<NotifyId>    // `Notify` objects that store a wake-up nobody has consumed
    var log: seq<Sending>         // every frame handed to the transport

    constructor (clientId: u32)
      ensures this.clientId == clientId && streams == map[] && nextId == 1
      ensures serials == 0 && permits == {} && log == []
    {
      this.clientId := clientId;
      streams, nextId, serials, permits, log := map[], 1, 0, {}, [];
    }

    /** Hands a frame to the transport, which may fail. */
    method Transmit(frame: seq<byte>) returns (ok: bool)
      modifies this`log
      ensures log == old(log) + [Sending(frame, ok)]
    {
      ok := *;
      log := log + [Sending(frame, ok)];
    }

    /** Takes the first vacant id from the counter on. Without one the loop of the source goes round for
        ever and keeps the lock, so nothing changes the table: the result `None` after a whole round. */
    method OpenStream() returns (found: Option<u16>)
      modifies this`streams, this`nextId, this`serials
      ensures found.Some? <==> exists free: u16 :: free != 0 && free !in old(streams)
      ensures found == None ==> streams == old(streams) && serials == old(serials)
      ensures found.Some? ==>
                && found.value != 0 && found.value !in old(streams)
                && streams == Step(clientId, old(streams), Opened(found.value, old(serials)))
                && serials == old(serials) + 1
                && exists k: nat :: k < TWO_TO_THE_16 && FirstVacant(old(streams), old(nextId), k)
                                    && found.value == Probe(old(nextId), k) && nextId == CounterAfter(old(nextId), k + 1)
    {
      ghost var start := nextId;
      var turns: nat := 0;
      while turns < TWO_TO_THE_16
        invariant streams == old(streams) && serials == old(serials)
        invariant turns <= TWO_TO_THE_16 && nextId == CounterAfter(start, turns)
        invariant forall j: nat :: j < turns ==> Probe(start, j) in streams
      {
        var sid := nextId;
        nextId := Next16(nextId);
        sid := if sid == 0 then 1 else sid;
        assert sid == Probe(start, turns);
        if sid !in streams {
          streams := streams[sid := Fresh(0, NotifyId(sid, serials))];
          serials := serials + 1;
          return Some(sid);
        }
        turns := turns + 1;
      }
      SearchStopsExactly(streams, start);
      found := None;
    }

    /** One chunk's lock section: the number it is sent under, or nothing if the stream is gone or closed. */
    method IssueSequence(sid: u16) returns (sequence: Option<u32>)
      modifies this`streams
      ensures streams == Step(clientId, old(streams), Issue(sid))
      ensures sequence == if CanIssue(old(streams), sid) then Some(old(streams)[sid].nextSendSeq) else None
    {
      if sid !in streams || streams[sid].closed {
        return None;
      }
      sequence := Some(streams[sid].nextSendSeq);
      streams := streams[sid := streams[sid].(nextSendSeq := Next32(streams[sid].nextSendSeq))];
    }

    /** Without interference the frames of the chunks are handed over in order, consecutively numbered:
        all of them, or those up to the first one that the transport refuses, and none if the stream is
        gone or closed. */
    method SendData(sid: u16, data: seq<byte>) returns (ok: bool)
      modifies this`streams, this`log
      ensures !CanIssue(old(streams), sid) ==> ok && streams == old(streams) && log == old(log)
      ensures CanIssue(old(streams), sid) ==>
                exists n: nat :: n <= |Chunks(data)| && streams == IssuedTo(old(streams), sid, n)
                                 && (if ok then n == |Chunks(data)| else n > 0)
                                 && log == old(log) + Handed(DataFrames(clientId, sid, old(streams)[sid].nextSendSeq,
                                                                        Chunks(data)[..n]), ok)
    {
      var chunks := Chunks(data);
      var i := 0;
      ghost var start := if sid in streams then streams[sid].nextSendSeq else 0;
      while i < |chunks|
        invariant 0 <= i <= |chunks|
        invariant if CanIssue(old(streams), sid) then streams == IssuedTo(old(streams), sid, i)
                  else i == 0 && streams == old(streams)
        invariant log == old(log) + Handed(DataFrames(clientId, sid, start, chunks[..i]), true)
      {
        var sequence := IssueSequence(sid);
        if sequence == None {
          assert chunks[..0] == [];
          return true;
        }
        NextPosition(start + i);
        assert streams == IssuedTo(old(streams), sid, i + 1);
        ok := Transmit(DataFrame(clientId, sid, sequence.value, chunks[i]));
        DataFramesSnoc(clientId, sid, start, chunks, i);
        HandedSnoc(DataFrames(clientId, sid, start, chunks[..i]), DataFrame(clientId, sid, sequence.value, chunks[i]), ok);
        if !ok {
          return false;
        }
        i := i + 1;
      }
      assert chunks[..|chunks|] == chunks;
      ok := true;
    }

    method NotifyOne(notify: NotifyId)
      modifies this`permits
      ensures permits == old(permits) + {notify}
    {
      permits := permits + {notify};
    }

    method CloseStream(sid: u16) returns (ok: bool)
      modifies this`streams, this`permits, this`log
      ensures streams == Step(clientId, old(streams), CloseLocal(sid))
      ensures permits == old(permits) + SignalsWithin(old(streams), CloseLocal(sid))
      ensures log == old(log) + [Sending(CloseFrame(clientId, sid), ok)]
    {
      if sid in streams {
        streams := streams[sid := streams[sid].(closed := true)];
        NotifyOne(streams[sid].notify);
      }
      ok := Transmit(CloseFrame(clientId, sid));
    }

    method SendClientReset() returns (r: ResetResult)
      modifies this`log
      ensures r == ClientIdZero <==> clientId == 0
      ensures log == old(log) + if clientId == 0 then [] else [Sending(ResetFrame(clientId), r == ResetSent)]
    {
      if clientId == 0 {
        return ClientIdZero;
      }
      var ok := Transmit(ResetFrame(clientId));
      r := if ok then ResetSent else ResetFailed;
    }

    method HandleFrame(frame: seq<byte>)
      modifies this`streams, this`serials, this`permits
      ensures streams == Step(clientId, old(streams), Handle(frame, old(serials)))
      ensures permits == old(permits) + SignalsWithin(old(streams), Handle(frame, old(serials)))
        + (match SignalAfter(old(streams), Parse(frame), old(serials)) case Some(n) => {n} case None => {})
      ensures serials == if streams.Keys <= old(streams).Keys then old(serials) else old(serials) + 1
    {
      if |frame| < HEADER_SIZE {
        return;
      }
      var first := FromBe32(frame[0..4]);
      var sid := FromBe16(frame[4..6]);
      var length := FromBe16(frame[6..8]);
      var last := FromBe32(frame[8..12]);
      if sid == CONTROL_STREAM_ID && length == U16_MAX {
        if last == CONTROL_RESET_CLIENT {
          ResetClient(first);
        }
        return;
      }
      if length == 0 {
        MarkClosed(sid, first);
        return;
      }
      if |frame| < HEADER_SIZE + length {
        return;
      }
      var notify := DataSection(first, sid, last, frame[HEADER_SIZE..HEADER_SIZE + length]);
      if notify.Some? {
        NotifyOne(notify.value);
      }
    }

    /** The lock section of a data frame: creates or replaces the record, then places the payload. */
    method DataSection(client: u32, sid: u16, sequence: u32, payload: seq<byte>) returns (notify: Option<NotifyId>)
      modifies this`streams, this`serials
      ensures streams == HandleParsed(old(streams), Data(client, sid, sequence, payload), old(serials))
      ensures notify == SignalAfter(old(streams), Data(client, sid, sequence, payload), old(serials))
      ensures serials == if sid in old(streams) then old(serials) else old(serials) + 1
    {
      if sid !in streams {
        streams := streams[sid := Fresh(client, NotifyId(sid, serials))];
        serials := serials + 1;
      }
      if streams[sid].clientId != client {
        streams := streams[sid := Fresh(client, streams[sid].notify)];
      }
      assert streams[sid] == RecordFor(old(streams), client, sid, old(serials));
      notify := Place(sid, sequence, payload);
    }

    /** Delivers, buffers or drops the payload. */
    method Place(sid: u16, sequence: u32, payload: seq<byte>) returns (notify: Option<NotifyId>)
      requires sid in streams
      modifies this`streams
      ensures streams == old(streams)[sid := Accept(old(streams)[sid], sequence, payload)]
      ensures notify == if Released(old(streams)[sid], sequence, payload) != [] then Some(old(streams)[sid].notify) else None
    {
      ghost var s := streams[sid];
      if sequence == streams[sid].nextRecvSeq {
        ghost var d := Drain(Next32(sequence), s.outOfOrder);
        var recvBuf, next, buffer := DrainBuffer(streams[sid].recvBuf + payload, Next32(sequence), streams[sid].outOfOrder);
        assert recvBuf == s.recvBuf + Concat(Released(s, sequence, payload)) by {
          ConcatCons(payload, d.payloads);
        }
        streams := streams[sid := streams[sid].(recvBuf := recvBuf, nextRecvSeq := next, outOfOrder := buffer)];
        notify := Some(streams[sid].notify);
      } else if sequence > streams[sid].nextRecvSeq && |streams[sid].outOfOrder| < REORDER_CAPACITY {
        streams := streams[sid := streams[sid].(outOfOrder := streams[sid].outOfOrder[sequence := payload])];
        notify := None;
      } else {
        notify := None;
      }
      assert streams[sid] == Accept(s, sequence, payload);
    }

    /** The loop that moves buffered frames to the readable bytes while the expected one is there. */
    static method DrainBuffer(readable: seq<byte>, first: u32, waiting: map<u32, seq<byte>>)
      returns (recvBuf: seq<byte>, next: u32, buffer: map<u32, seq<byte>>)
      ensures next == Drain(first, waiting).next && buffer == Drain(first, waiting).rest
      ensures recvBuf == readable + Concat(Drain(first, waiting).payloads)
    {
      recvBuf, next, buffer := readable, first, waiting;
      while next in buffer
        invariant Drain(next, buffer).rest == Drain(first, waiting).rest
        invariant Drain(next, buffer).next == Drain(first, waiting).next
        invariant recvBuf + Concat(Drain(next, buffer).payloads) == readable + Concat(Drain(first, waiting).payloads)
        decreases |buffer|
      {
        ghost var left := Drain(Next32(next), buffer - {next}).payloads;
        assert Drain(next, buffer).payloads == [buffer[next]] + left;
        ConcatCons(buffer[next], left);
        assert buffer.Keys == (buffer - {next}).Keys + {next};
        recvBuf := recvBuf + buffer[next];
        buffer := buffer - {next};
        next := Next32(next);
      }
      assert Drain(next, buffer) == Drained([], next, buffer);
    }

    method MarkClosed(sid: u16, client: u32)
      modifies this`streams, this`permits
      ensures streams == HandleParsed(old(streams), Close(client, sid), 0)
      ensures permits == old(permits)
        + (match SignalAfter(old(streams), Close(client, sid), 0) case Some(n) => {n} case None => {})
    {
      if sid in streams && streams[sid].clientId == client {
        streams := streams[sid := streams[sid].(closed := true)];
        NotifyOne(streams[sid].notify);
      }
    }

    /** `retain`: visits the records one by one and drops those of the client, waking their waiters. */
    method ResetClient(client: u32)
      modifies this`streams, this`permits
      ensures streams == HandleParsed(old(streams), Reset(client), 0)
      ensures permits == old(permits)
        + set sid | sid in old(streams) && old(streams)[sid].clientId == client :: old(streams)[sid].notify
    {
      var todo := streams.Keys;
      while todo != {}
        invariant todo <= old(streams).Keys
        invariant streams
          == map sid | sid in old(streams) && (sid in todo || old(streams)[sid].clientId != client) :: old(streams)[sid]
        invariant permits == old(permits)
          + set sid | sid in old(streams) && sid !in todo && old(streams)[sid].clientId == client :: old(streams)[sid].notify
        decreases |todo|
      {
        var sid :| sid in todo;
        if streams[sid].clientId == client {
          NotifyOne(streams[sid].notify);
          streams := streams - {sid};
        }
        todo := todo - {sid};
      }
    }

    method ReadStream(sid: u16) returns (data: seq<byte>)
      modifies this`streams
      ensures streams == Step(clientId, old(streams), Read(sid))
      ensures data == if sid in old(streams) then old(streams)[sid].recvBuf else []
    {
      if sid !in streams {
        return [];
      }
      data := streams[sid].recvBuf;
      streams := streams[sid := streams[sid].(recvBuf := [])];
    }

    /** The lock section of `wait_for_data`: nothing if it may return, else the `Notify` to wait on. */
    method WaitSection(sid: u16) returns (waitOn: Option<NotifyId>)
      modifies this`streams, this`serials
      ensures streams == Step(clientId, old(streams), Wait(sid, old(serials)))
      ensures waitOn == if streams[sid].recvBuf != [] || streams[sid].closed then None else Some(streams[sid].notify)
      ensures serials == if sid in old(streams) then old(serials) else old(serials) + 1
    {
      if sid !in streams {
        streams := streams[sid := Fresh(clientId, NotifyId(sid, serials))];
        serials := serials + 1;
      }
      waitOn := if streams[sid].recvBuf != [] || streams[sid].closed then None else Some(streams[sid].notify);
    }

    method StreamClosed(sid: u16) returns (closed: bool)
      ensures closed <==> IsClosed(streams, sid)
    {
      closed := if sid in streams then streams[sid].closed else true;
    }
  }
}

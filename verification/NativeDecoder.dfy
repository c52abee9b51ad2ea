/** `Decoder` of tools/lms200_native/protocol.cpp: the C++ parser, event by event. */
module NativeDecoder {
  import opened Bytes
  import Crc
  import opened Framing

  /** Why an event carries a note; Clear is the empty reason string. */
  datatype Reason =
    | Clear
    | Resynchronizing     // control byte whose attribution is uncertain
    | OutsideTelegram
    | ShortHeader
    | InvalidLength
    | IncompleteTelegram
    | CrcMismatch
    | TerminalRescan      // frame recovered by `finish`

  datatype NativeFrame = NativeFrame(
    offset: nat, address: Byte, payload: Bytes, raw: Bytes, crcReceived: Crc.Word, crcCalculated: Crc.Word)

  datatype NativeEvent =
    | AckSeen(offset: nat, reason: Reason)
    | NakSeen(offset: nat, reason: Reason)
    | FrameSeen(offset: nat, frame: NativeFrame, reason: Reason)
    | Rejected(offset: nat, raw: Bytes, reason: Reason)

  datatype DecoderStats = DecoderStats(
    rawBytes: nat, ack: nat, nak: nat, validFrames: nat, crcFailures: nat, rejected: nat, noise: nat)

  const NO_DECODER_STATS := DecoderStats(0, 0, 0, 0, 0, 0, 0)

  /** The decoder's fields, with the ghost list of every event it has returned so far. */
  datatype Native = Native(buffer: Bytes, offset: nat, stats: DecoderStats, ambiguous: bool, seen: seq<NativeEvent>)

  const BOOT := Native([], 0, NO_DECODER_STATS, false, [])

  predicate Marker(b: Byte) {
    b == STX || b == ACK || b == NAK
  }

  /** `std::find_if`: how many bytes lie before the first STX, ACK or NAK. */
  function Run(buffer: Bytes): (n: nat)
    ensures n <= |buffer|
    ensures forall i | 0 <= i < n :: !Marker(buffer[i])
    ensures n < |buffer| ==> Marker(buffer[n])
  {
    if buffer == [] || Marker(buffer[0]) then 0 else 1 + Run(buffer[1..])
  }

  predicate ShortOf(buffer: Bytes) {
    |buffer| < 4 || (1 <= Declared(buffer) <= 808 && |buffer| < Declared(buffer) + 6)
  }

  /** The loop goes on: there is a byte, and a telegram in progress is complete or given up. */
  predicate Busy(buffer: Bytes, final: bool) {
    buffer != [] && (buffer[0] == STX && ShortOf(buffer) ==> final)
  }

  function Consume(n: Native, count: nat): Native
    requires count <= |n.buffer|
  {
    n.(buffer := n.buffer[count..], offset := n.offset + count)
  }

  function Reject(n: Native, raw: Bytes, reason: Reason): Native {
    n.(seen := n.seen + [Rejected(n.offset, raw, reason)],
       stats := n.stats.(rejected := n.stats.rejected + 1))
  }

  function NativeFrameOf(offset: nat, raw: Bytes): NativeFrame
    requires |raw| >= 6
  {
    NativeFrame(offset, raw[1], raw[4..|raw| - 2], raw, Received(raw), Expected(raw))
  }

  datatype Progress = Progress(decoder: Native, recovering: bool)

  /** The turn behind an STX, once the telegram is complete or given up. */
  function StxTurn(n: Native, recovering: bool): (p: Progress)
    requires n.buffer != []
    ensures |p.decoder.buffer| < |n.buffer|
  {
    if |n.buffer| < 4 then
      Progress(Consume(Reject(n, n.buffer, ShortHeader).(ambiguous := true), 1), true)
    else if Declared(n.buffer) == 0 || Declared(n.buffer) > 808 then
      Progress(Consume(Reject(n, n.buffer[..4], InvalidLength).(ambiguous := true), 1), recovering)
    else if |n.buffer| < Declared(n.buffer) + 6 then
      Progress(Consume(Reject(n, n.buffer, IncompleteTelegram).(ambiguous := true), 1), true)
    else
      var raw := n.buffer[..Declared(n.buffer) + 6];
      if Received(raw) != Expected(raw) then
        var m := Reject(n, raw, CrcMismatch);
        Progress(Consume(m.(ambiguous := true, stats := m.stats.(crcFailures := m.stats.crcFailures + 1)), 1), recovering)
      else
        var event := FrameSeen(n.offset, NativeFrameOf(n.offset, raw), if recovering then TerminalRescan else Clear);
        Progress(Consume(n.(seen := n.seen + [event], ambiguous := false,
                            stats := n.stats.(validFrames := n.stats.validFrames + 1)), |raw|), recovering)
  }

  /** One turn of the loop in `parse`. */
  function ParseTurn(n: Native, recovering: bool, final: bool): (p: Progress)
    requires Busy(n.buffer, final)
    ensures |p.decoder.buffer| < |n.buffer|
  {
    var first := n.buffer[0];
    if first == ACK || first == NAK then
      var reason := if recovering || n.ambiguous then Resynchronizing else Clear;
      var event := if first == ACK then AckSeen(n.offset, reason) else NakSeen(n.offset, reason);
      var stats := if first == ACK then n.stats.(ack := n.stats.ack + 1) else n.stats.(nak := n.stats.nak + 1);
      Progress(Consume(n.(seen := n.seen + [event], stats := stats), 1), recovering)
    else if first != STX then
      var count := Run(n.buffer);
      var m := Reject(n, n.buffer[..count], OutsideTelegram);
      Progress(Consume(m.(stats := m.stats.(noise := m.stats.noise + count)), count), recovering)
    else StxTurn(n, recovering)
  }

  function Parse(n: Native, recovering: bool, final: bool): Native
    decreases |n.buffer|
  {
    if Busy(n.buffer, final) then
      var p := ParseTurn(n, recovering, final);
      Parse(p.decoder, p.recovering, final)
    else n
  }

  function FeedNative(n: Native, bytes: Bytes): Native {
    Parse(n.(buffer := n.buffer + bytes, stats := n.stats.(rawBytes := n.stats.rawBytes + |bytes|)), false, false)
  }

  function FinishNative(n: Native): Native {
    Parse(n, false, true)
  }

  class Decoder {
    var buffer: Bytes
    var offset: nat
    var stats: DecoderStats
    var ambiguous: bool
    ghost var seen: seq<NativeEvent>

    ghost function Value(): Native
      reads this
    {
      Native(buffer, offset, stats, ambiguous, seen)
    }

    constructor ()
      ensures Value() == BOOT
    {
      buffer, offset, stats, ambiguous, seen := [], 0, NO_DECODER_STATS, false, [];
    }

    method FeedBytes(bytes: Bytes) returns (events: seq<NativeEvent>)
      modifies this
      ensures Value() == FeedNative(old(Value()), bytes)
      ensures seen == old(seen) + events
    {
      stats := stats.(rawBytes := stats.rawBytes + |bytes|);
      buffer := buffer + bytes;
      events := ParseLoop(false);
    }

    method Finish() returns (events: seq<NativeEvent>)
      modifies this
      ensures Value() == FinishNative(old(Value()))
      ensures seen == old(seen) + events
    {
      events := ParseLoop(true);
    }

    method ParseLoop(final: bool) returns (events: seq<NativeEvent>)
      modifies this
      ensures Value() == Parse(old(Value()), false, final)
      ensures seen == old(seen) + events
    {
      hide ParseTurn, Busy;
      events := [];
      var recovering := false;
      while true
        invariant seen == old(seen) + events
        invariant Parse(Value(), recovering, final) == Parse(old(Value()), false, final)
        decreases |buffer|
      {
        var event, next, more := Iterate(final, recovering);
        if !more {
          return;
        }
        events := events + [event];
        recovering := next;
      }
    }

    method IterateStx(final: bool, recovering: bool) returns (event: NativeEvent, next: bool, more: bool)
      requires buffer != []
      modifies this
      ensures more == (final || !ShortOf(old(buffer)))
      ensures !more ==> Value() == old(Value())
      ensures more ==> Progress(Value(), next) == StxTurn(old(Value()), recovering)
      ensures more ==> seen == old(seen) + [event]
    {
      hide Received, Expected;
      next, more := recovering, true;
      event := Rejected(offset, [], Clear);
      var size := 1;
      if |buffer| < 4 {
        if !final {
          more := false;
          return;
        }
        event := Rejected(offset, buffer, ShortHeader);
        stats, ambiguous, next := stats.(rejected := stats.rejected + 1), true, true;
      } else if Number(buffer[2], buffer[3]) == 0 || Number(buffer[2], buffer[3]) > 808 {
        event := Rejected(offset, buffer[..4], InvalidLength);
        stats, ambiguous := stats.(rejected := stats.rejected + 1), true;
      } else {
        var total := Number(buffer[2], buffer[3]) + 6;
        if |buffer| < total {
          if !final {
            more := false;
            return;
          }
          event := Rejected(offset, buffer, IncompleteTelegram);
          stats, ambiguous, next := stats.(rejected := stats.rejected + 1), true, true;
        } else {
          var raw := buffer[..total];
          if Received(raw) != Expected(raw) {
            event := Rejected(offset, raw, CrcMismatch);
            stats := stats.(rejected := stats.rejected + 1, crcFailures := stats.crcFailures + 1);
            ambiguous := true;
          } else {
            event := FrameSeen(offset, NativeFrameOf(offset, raw), if recovering then TerminalRescan else Clear);
            stats := stats.(validFrames := stats.validFrames + 1);
            ambiguous := false;
            size := total;
          }
        }
      }
      seen := seen + [event];
      buffer := buffer[size..];
      offset := offset + size;
    }

    /** The body of the loop; `more` is false where the source leaves the loop. */
    method Iterate(final: bool, recovering: bool) returns (event: NativeEvent, next: bool, more: bool)
      modifies this
      ensures more == Busy(old(buffer), final)
      ensures !more ==> Value() == old(Value())
      ensures more ==> Progress(Value(), next) == ParseTurn(old(Value()), recovering, final)
      ensures more ==> seen == old(seen) + [event] && |buffer| < |old(buffer)|
    {
      hide StxTurn, ShortOf;
      next, more := recovering, true;
      event := Rejected(offset, [], Clear);
      if buffer == [] {
        more := false;
        return;
      }
      var first := buffer[0];
      var size := 1;
      if first == ACK || first == NAK {
        var reason := if recovering || ambiguous then Resynchronizing else Clear;
        event := if first == ACK then AckSeen(offset, reason) else NakSeen(offset, reason);
        stats := if first == ACK then stats.(ack := stats.ack + 1) else stats.(nak := stats.nak + 1);
      } else if first != STX {
        size := Run(buffer);
        event := Rejected(offset, buffer[..size], OutsideTelegram);
        stats := stats.(rejected := stats.rejected + 1, noise := stats.noise + size);
      } else {
        event, next, more := IterateStx(final, recovering);
        return;
      }
      seen := seen + [event];
      buffer := buffer[size..];
      offset := offset + size;
    }
  }
}

/** `Handshake` of tools/lms200_native/sequence.cpp and the reply checks of protocol.cpp it uses. */
module Handshake {
  import opened Bytes
  import opened Framing
  import opened NativeDecoder

  datatype Command = Status | Variant | Start | Stop

  function CommandOf(frame: NativeFrame): Byte {
    if frame.payload == [] then 0 else frame.payload[0]
  }

  function StatusOf(frame: NativeFrame): Byte {
    if |frame.payload| < 2 then 0 else frame.payload[|frame.payload| - 1]
  }

  /** `validate_response`. */
  predicate ValidateResponse(frame: NativeFrame) {
    && |frame.raw| >= 7 && frame.raw[0] == STX
    && (frame.address == 0x80 || frame.address == 0x81)
    && frame.raw[1] == frame.address && Declared(frame.raw) == |frame.payload|
    && |frame.raw| == |frame.payload| + 6 && |frame.payload| <= 808
    && frame.payload == frame.raw[4..4 + |frame.payload|]
    && CrcValid(frame.raw)
    && |frame.payload| >= 2 && CommandOf(frame) >= 0x80
    && StatusOf(frame) % 8 <= 4
    && CommandOf(frame) != 0x92
  }

  predicate Healthy(frame: NativeFrame) {
    ValidateResponse(frame) && StatusOf(frame) % 8 < 3
  }

  predicate ValidateA0(frame: NativeFrame) {
    && Healthy(frame)
    && CommandOf(frame) == 0xA0
    && |frame.payload| == 3
    && frame.payload[1] == 0
  }

  predicate ValidateBB(frame: NativeFrame) {
    && Healthy(frame)
    && CommandOf(frame) == 0xBB
    && |frame.payload| == 7
    && frame.payload[1] == 1
    && Number(frame.payload[2], frame.payload[3]) == 100
    && Number(frame.payload[4], frame.payload[5]) == 100
  }

  predicate Geometry(angle: nat, resolution: nat) {
    || (angle == 100 && (resolution == 25 || resolution == 50 || resolution == 100))
    || (angle == 180 && (resolution == 50 || resolution == 100))
  }

  datatype StatusInfo = StatusInfo(
    supported: bool, operatingMode: Byte, deviceError: Byte, angle: nat, resolution: nat,
    millimetres: bool, measuringMode: Byte, statusByte: Byte, baud: nat)

  const NO_STATUS := StatusInfo(false, 0, 0, 0, 0, false, 0, 0, 0)

  function BaudOf(code: nat): nat {
    if code == 0x8067 then 9600
    else if code == 0x8033 then 19200
    else if code == 0x8019 then 38400
    else if code == 0x8001 then 500000
    else 0
  }

  /** `decode_status`; fields read before the check that fails are kept, as in the source. */
  function DecodeStatus(frame: NativeFrame): StatusInfo {
    var blank := NO_STATUS.(statusByte := StatusOf(frame));
    if !ValidateResponse(frame) || CommandOf(frame) != 0xB1 then blank else
      var data := frame.payload[1..|frame.payload| - 1];
      if |data| != 146 && |data| != 152 then blank else
        var shift := if |data| == 152 then 6 else 0;
        var angle := Number(data[100 + shift], data[101 + shift]);
        var resolution := Number(data[102 + shift], data[103 + shift]);
        var read := blank.(operatingMode := data[7], deviceError := data[8], angle := angle,
                           resolution := resolution, measuringMode := data[95 + shift]);
        if exists i | 0 <= i < 7 :: !(0x20 <= data[i] <= 0x7E) then read
        else if !Geometry(angle, resolution) then read
        else if data[115 + shift] > 1 then read
        else
          var unit := read.(millimetres := data[115 + shift] == 1);
          var baud := BaudOf(Number(data[109 + shift], data[110 + shift]));
          if baud == 0 then unit else unit.(baud := baud, supported := true)
  }

  function ExpectedReply(command: Command): Byte {
    match command
    case Status => 0xB1
    case Variant => 0xBB
    case _ => 0xA0
  }

  /** The check `observe` applies to a frame that answers `command`. */
  predicate ReplyOk(command: Command, frame: NativeFrame) {
    match command
    case Status =>
      var status := DecodeStatus(frame);
      status.supported && status.statusByte % 8 < 3 && status.deviceError == 0 && status.baud == 9600
    case Variant => ValidateBB(frame)
    case _ => ValidateA0(frame)
  }

  datatype Latch = Latch(
    command: Command, firstOffset: nat, ack: bool, nak: bool, reply: bool, rejected: bool,
    frame: Option<NativeFrame>, status: StatusInfo)

  function Fresh(command: Command, boundary: nat): Latch {
    Latch(command, boundary, false, false, false, false, None, NO_STATUS)
  }

  predicate Successful(h: Latch) {
    h.ack && h.reply && !h.nak && !h.rejected
  }

  function Observe(h: Latch, event: NativeEvent): Latch {
    if event.offset < h.firstOffset || event.reason != Clear then h
    else match event
      case AckSeen(_, _) => h.(ack := true)
      case NakSeen(_, _) => h.(nak := true)
      case Rejected(_, _, _) => h
      case FrameSeen(_, frame, _) =>
        if CommandOf(frame) == 0x92 && (frame.address == 0x80 || frame.address == 0x81) then h.(rejected := true)
        else if CommandOf(frame) != ExpectedReply(h.command) || !h.ack then h
        else
          var g := if h.command == Status then h.(status := DecodeStatus(frame)) else h;
          if ReplyOk(h.command, frame) then g.(frame := Some(frame), reply := true) else g.(rejected := true)
  }

  /** Latest event last. */
  function ObserveAll(h: Latch, events: seq<NativeEvent>): Latch {
    if events == [] then h else Observe(ObserveAll(h, events[..|events| - 1]), events[|events| - 1])
  }

  /** The mutable `Handshake`. */
  class Handshaker {
    var ack: bool
    var nak: bool
    var reply: bool
    var rejected: bool
    var frame: Option<NativeFrame>
    var status: StatusInfo
    const command: Command
    const firstOffset: nat

    ghost function Value(): Latch
      reads this
    {
      Latch(command, firstOffset, ack, nak, reply, rejected, frame, status)
    }

    constructor (command: Command, boundary: nat)
      ensures Value() == Fresh(command, boundary)
    {
      this.command, firstOffset := command, boundary;
      ack, nak, reply, rejected, frame, status := false, false, false, false, None, NO_STATUS;
    }

    method Notice(event: NativeEvent)
      modifies this
      ensures Value() == Observe(old(Value()), event)
    {
      hide DecodeStatus, ValidateA0, ValidateBB;
      if event.offset < firstOffset || event.reason != Clear {
        return;
      }
      if event.AckSeen? {
        ack := true;
        return;
      }
      if event.NakSeen? {
        nak := true;
        return;
      }
      if !event.FrameSeen? {
        return;
      }
      var received := event.frame;
      if CommandOf(received) == 0x92 && (received.address == 0x80 || received.address == 0x81) {
        rejected := true;
        return;
      }
      var expected := if command == Status then 0xB1 else if command == Variant then 0xBB else 0xA0;
      if CommandOf(received) != expected {
        return;
      }
      if !ack {
        return;
      }
      var ok: bool;
      if command == Status {
        status := DecodeStatus(received);
        ok := status.supported && status.statusByte % 8 < 3 && status.deviceError == 0;
        if status.supported && status.baud != 9600 {
          ok := false;
        }
      } else {
        ok := if command == Variant then ValidateBB(received) else ValidateA0(received);
      }
      if !ok {
        rejected := true;
        return;
      }
      frame := Some(received);
      reply := true;
    }

    /** The cursor loop of `Session::exchange`. */
    method CatchUp(observations: seq<NativeEvent>, cursor: nat) returns (next: nat)
      requires cursor <= |observations|
      requires Value() == ObserveAll(Fresh(command, firstOffset), observations[..cursor])
      modifies this
      ensures next == |observations|
      ensures Value() == ObserveAll(Fresh(command, firstOffset), observations)
    {
      hide Observe;
      next := cursor;
      while next < |observations|
        invariant next <= |observations|
        invariant Value() == ObserveAll(Fresh(command, firstOffset), observations[..next])
      {
        Notice(observations[next]);
        next := next + 1;
        assert observations[..next][..next - 1] == observations[..next - 1];
      }
      assert observations[..next] == observations;
    }
  }
}

/** transports/simulator.py: the synthetic scanner that answers command telegrams. */
module Simulator {
  import opened Bytes
  import opened IncrementalScan
  import opened Framing
  import opened FramingTheorems
  import opened FramingAccounts
  import opened Commands

  /** The scanner side of `SimulatorTransport`; `incoming` is its framer's buffer. */
  datatype Scanner = Scanner(
    baud: nat, mode: Byte, config: Bytes, angle: nat, resolution: nat, status: Byte,
    nakNext: nat, silenceNext: nat, omitAck: bool, incoming: Bytes)

  const VERSION: Bytes := [0x56, 0x30, 0x32, 0x2E, 0x31, 0x30, 0x20]  // "V02.10 "
  const SICK_LMS: Bytes := [0x53, 0x49, 0x43, 0x4B, 0x5F, 0x4C, 0x4D, 0x53]
  const IDENTITY: Bytes := LMS200_SEMICOLON + [0x33, 0x3B] + VERSION  // LMS200;301063;V02.10

  /** `status_data` does not raise. */
  predicate Reportable(sc: Scanner) {
    IsConfiguration(sc.config) && LegalUnit(sc.config) && sc.baud in BAUD_RATES
  }

  /** `status_data`: the 152-byte layout. */
  function StatusData(sc: Scanner): (data: Bytes)
    requires Reportable(sc)
    ensures |data| == 152
  {
    seq(152, i requires 0 <= i < 152 => StatusDataAt(sc, i))
  }

  function StatusDataAt(sc: Scanner, i: nat): Byte
    requires Reportable(sc)
  {
    if i < 7 then VERSION[i]
    else if i == 7 then sc.mode
    else if i == 8 then (if Severity(sc.status) >= 3 then 1 else 0)
    else if i == 101 then sc.config[5]
    else if i == 106 then sc.angle % 256
    else if i == 107 then sc.angle / 256 % 256
    else if i == 108 then sc.resolution % 256
    else if i == 109 then sc.resolution / 256 % 256
    else if i == 115 then StatusBaudCode(sc.baud) % 256
    else if i == 116 then StatusBaudCode(sc.baud) / 256
    else if i == 121 then sc.config[6]
    else if 123 <= i < 130 then VERSION[i - 123]
    else 0
  }

  datatype Reaction = Reaction(scanner: Scanner, reply: Bytes, newBaud: Option<nat>)

  predicate IsModeRequest(payload: Bytes) {
    |payload| >= 2 && payload[0] == 0x20
  }

  predicate IsVariantRequest(payload: Bytes) {
    |payload| == 5 && payload[0] == 0x3B
  }

  predicate IsStoreRequest(payload: Bytes) {
    (|payload| == 33 || |payload| == 35) && payload[0] == 0x77
  }

  function BaudOfCode(code: Byte): Option<nat> {
    if code == 0x42 then Some(9600)
    else if code == 0x41 then Some(19200)
    else if code == 0x40 then Some(38400)
    else if code == 0x48 then Some(500000)
    else None
  }

  /** The branches of `write` on the payload of one command. */
  function React(sc: Scanner, payload: Bytes): (r: Reaction)
    requires payload == [0x31] ==> Reportable(sc)
    ensures 1 <= |r.reply| <= 160
  {
    if payload == [0x31] then Reaction(sc, [0xB1] + StatusData(sc), None)
    else if payload == [0x3A] then Reaction(sc, [0xBA] + IDENTITY, None)
    else if payload == [0x74] && |sc.config| <= 34 then Reaction(sc, [0xF4] + sc.config, None)
    else if IsModeRequest(payload) then ReactMode(sc, payload)
    else if IsVariantRequest(payload) && (sc.mode == 0 || sc.mode == 0x25) then
      var angle, resolution := Number(payload[1], payload[2]), Number(payload[3], payload[4]);
      if ValidGeometry(angle, resolution) then
        Reaction(sc.(angle := angle, resolution := resolution), [0xBB, 1] + payload[1..], None)
      else Reaction(sc, [0xBB, 0] + payload[1..], None)
    else if IsStoreRequest(payload) && sc.mode == 0 then
      Reaction(sc.(config := payload[1..]), [0xF7, 1] + payload[1..], None)
    else Reaction(sc, [0x92], None)
  }

  function ReactMode(sc: Scanner, payload: Bytes): (r: Reaction)
    requires IsModeRequest(payload)
    ensures 1 <= |r.reply| <= 160
  {
    var code := payload[1];
    if code == 0 && payload[2..] == SICK_LMS then Reaction(sc.(mode := 0), [0xA0, 0], None)
    else if (code == 0x24 || code == 0x25) && |payload| == 2 then Reaction(sc.(mode := code), [0xA0, 0], None)
    else if BaudOfCode(code).Some? && |payload| == 2 then Reaction(sc, [0xA0, 0], BaudOfCode(code))
    else Reaction(sc, [0xA0, 1], None)
  }

  /** The scanner after some commands and what it put on the line; `raised` ends the loop early. */
  datatype Handled = Handled(scanner: Scanner, output: Bytes, raised: bool)

  function HandleFrame(sc: Scanner, event: Event): Handled {
    if !event.Telegram? || (event.frame.address != 0 && event.frame.address != 1) then Handled(sc, [], false) else
      var payload := event.frame.payload;
      if sc.silenceNext > 0 then Handled(sc.(silenceNext := sc.silenceNext - 1), [], false)
      else if sc.nakNext > 0 then Handled(sc.(nakNext := sc.nakNext - 1), [NAK], false)
      else if payload == [0x31] && !Reportable(sc) then Handled(sc, [], true)
      else
        var r := React(sc, payload);
        var after := if r.newBaud.Some? then r.scanner.(baud := r.newBaud.value) else r.scanner;
        Handled(after, (if sc.omitAck then [] else [ACK]) + Wire(r.reply + [sc.status], 0x81), false)
  }

  function HandleFrames(sc: Scanner, events: seq<Event>): Handled
    decreases |events|
  {
    if events == [] then Handled(sc, [], false) else
      var h := HandleFrame(sc, events[0]);
      if h.raised then h else
        var t := HandleFrames(h.scanner, events[1..]);
        Handled(t.scanner, h.output + t.output, t.raised)
  }

  /** `write`: nothing is heard while the two ends disagree about the baud rate. */
  function WriteScanner(sc: Scanner, hostBaud: nat, data: Bytes): Handled {
    if hostBaud != sc.baud then Handled(sc, [], false) else
      var s := Tokens(sc.incoming + data, 0);
      HandleFrames(sc.(incoming := s.rest), Reported(s.items))
  }

  // ---------------------------------------------------------------- the transport object

  const STEPS: seq<nat> := [1, 2, 7, 31, 128]

  /** Cut into pieces of the given sizes and a rest. */
  function Cut(data: Bytes, steps: seq<nat>): seq<Bytes> {
    if data == [] then []
    else if steps == [] || |data| <= steps[0] then [data]
    else [data[..steps[0]]] + Cut(data[steps[0]..], steps[1..])
  }

  function Fragments(data: Bytes): seq<Bytes> {
    Cut(data, STEPS)
  }

  /** `data[pos:]`, also behind the end. */
  function Rest(data: Bytes, pos: nat): Bytes {
    if pos < |data| then data[pos..] else []
  }

  lemma RestStep(data: Bytes, pos: nat, step: nat)
    requires pos < |data|
    ensures var n := if step <= |data| - pos then step else |data| - pos;
      Rest(data, pos)[..n] == data[pos..pos + n] && Rest(data, pos)[n..] == Rest(data, pos + step)
  {
  }

  lemma CutStep(data: Bytes, steps: seq<nat>)
    requires steps != []
    ensures data == [] ==> Cut(data, steps) == []
    ensures data != [] ==>
      var n := if steps[0] <= |data| then steps[0] else |data|;
      Cut(data, steps) == [data[..n]] + Cut(data[n..], steps[1..])
  {
    if |data| <= steps[0] {
      assert data[..|data|] == data && data[|data|..] == [];
    }
  }

  lemma EmitStep(queue: seq<Bytes>, data: Bytes, pos: nat, steps: seq<nat>)
    requires steps != [] && pos < |data|
    ensures var next := if pos + steps[0] <= |data| then pos + steps[0] else |data|;
      queue + Cut(Rest(data, pos), steps) == (queue + [data[pos..next]]) + Cut(Rest(data, pos + steps[0]), steps[1..])
  {
    hide Cut;
    var n := if steps[0] <= |data| - pos then steps[0] else |data| - pos;
    RestStep(data, pos, steps[0]);
    RestLength(data, pos);
    hide Rest;
    CutStep(Rest(data, pos), steps);
    Regroup(queue, [data[pos..pos + n]], Cut(Rest(data, pos + steps[0]), steps[1..]));
  }

  lemma RestLength(data: Bytes, pos: nat)
    requires pos < |data|
    ensures |Rest(data, pos)| == |data| - pos
  {
  }

  lemma CutRest(data: Bytes)
    ensures Cut(data, []) == if data == [] then [] else [data]
  {
  }

  /** Fragmentation loses nothing. */
  lemma {:induction false} FlattenCut(data: Bytes, steps: seq<nat>)
    ensures Flatten(Cut(data, steps)) == data
    decreases |steps|
  {
    if data == [] {
    } else if steps == [] || |data| <= steps[0] {
      assert [data][1..] == [];
      AppendNothing(data);
    } else {
      FlattenCut(data[steps[0]..], steps[1..]);
      var rest := Cut(data[steps[0]..], steps[1..]);
      assert ([data[..steps[0]]] + rest)[1..] == rest;
    }
  }

  class SimulatorTransport {
    var baud: nat
    var deviceBaud: nat
    var mode: Byte
    var config: Bytes
    var angle: nat
    var resolution: nat
    var status: Byte
    var nakNext: nat
    var silenceNext: nat
    var omitAck: bool
    var queue: seq<Bytes>
    const incoming: Framer

    ghost function Value(): Scanner
      reads this, incoming
    {
      Scanner(deviceBaud, mode, config, angle, resolution, status, nakNext, silenceNext, omitAck,
              incoming.buffer)
    }

    constructor (baud: nat, deviceBaud: nat, config: Bytes)
      ensures Value() == Scanner(deviceBaud, 0x25, config, 180, 50, 0x10, 0, 0, false, [])
      ensures this.baud == baud && queue == [] && fresh(incoming)
    {
      this.baud, this.deviceBaud, this.config := baud, deviceBaud, config;
      mode, angle, resolution, status := 0x25, 180, 50, 0x10;
      nakNext, silenceNext, omitAck := 0, 0, false;
      queue := [];
      incoming := new Framer();
    }

    /** `_emit`: the data leaves in fragments, also inside headers and checksums. */
    method Emit(data: Bytes)
      modifies this`queue
      ensures queue == old(queue) + Fragments(data)
      ensures Flatten(queue) == Flatten(old(queue)) + data
    {
      FlattenCut(data, STEPS);
      FlattenConcat(queue, Fragments(data));
      ghost var all := queue + Fragments(data);
      assert STEPS[0..] == STEPS && Rest(data, 0) == data;
      hide Cut, Fragments, Flatten;
      var pos := 0;
      for i := 0 to |STEPS|
        invariant 0 <= pos && all == queue + Cut(Rest(data, pos), STEPS[i..])
      {
        if pos >= |data| {
          CutStep([], STEPS[i..]);
          AppendNothing(queue);
          return;
        }
        var next := if pos + STEPS[i] <= |data| then pos + STEPS[i] else |data|;
        EmitStep(queue, data, pos, STEPS[i..]);
        assert STEPS[i..][1..] == STEPS[i + 1..];
        queue := queue + [data[pos..next]];
        pos := pos + STEPS[i];
      }
      CutRest(Rest(data, pos));
      if pos < |data| {
        queue := queue + [data[pos..]];
      } else {
        AppendNothing(queue);
      }
    }

    /** One frame of the loop in `write`. */
    method Answer(event: Event) returns (raised: bool)
      modifies this`mode, this`config, this`angle, this`resolution, this`deviceBaud
      modifies this`nakNext, this`silenceNext, this`queue
      ensures var h := HandleFrame(old(Value()), event);
        && Value() == h.scanner && raised == h.raised
        && Flatten(queue) == Flatten(old(queue)) + h.output
    {
      hide React, Wire, Flatten;
      raised := false;
      AppendNothing(Flatten(queue));
      if !event.Telegram? || (event.frame.address != 0 && event.frame.address != 1) {
        return;
      }
      var payload := event.frame.payload;
      if silenceNext > 0 {
        silenceNext := silenceNext - 1;
        return;
      }
      if nakNext > 0 {
        nakNext := nakNext - 1;
        Emit([NAK]);
        return;
      }
      if payload == [0x31] && !(IsConfiguration(config) && LegalUnit(config) && deviceBaud in BAUD_RATES) {
        raised := true;
        return;
      }
      ghost var start := Flatten(queue);
      var newBaud, reply := Execute(payload);
      if !omitAck {
        Emit([ACK]);
      }
      AppendNothing(start);
      Regroup(start, if omitAck then [] else [ACK], Wire(reply + [status], 0x81));
      Emit(Wire(reply + [status], 0x81));
      if newBaud.Some? {
        deviceBaud := newBaud.value;
      }
    }

    /** The branches on the payload. */
    method Execute(payload: Bytes) returns (newBaud: Option<nat>, reply: Bytes)
      requires payload == [0x31] ==> Reportable(Value())
      modifies this`mode, this`config, this`angle, this`resolution
      ensures Reaction(Value(), reply, newBaud) == React(old(Value()), payload)
      ensures 1 <= |reply| <= 160
    {
      hide StatusDataAt;
      newBaud, reply := None, [0x92];
      if payload == [0x31] {
        reply := [0xB1] + StatusData(Scanner(deviceBaud, mode, config, angle, resolution, status,
                                             nakNext, silenceNext, omitAck, incoming.buffer));
      } else if payload == [0x3A] {
        reply := [0xBA] + IDENTITY;
      } else if payload == [0x74] && |config| <= 34 {
        reply := [0xF4] + config;
      } else if |payload| >= 2 && payload[0] == 0x20 {
        var code := payload[1];
        reply := [0xA0, 0];
        if code == 0 && payload[2..] == SICK_LMS {
          mode := 0;
        } else if (code == 0x24 || code == 0x25) && |payload| == 2 {
          mode := code;
        } else if BaudOfCode(code).Some? && |payload| == 2 {
          newBaud := BaudOfCode(code);
        } else {
          reply := [0xA0, 1];
        }
      } else if |payload| == 5 && payload[0] == 0x3B && (mode == 0 || mode == 0x25) {
        var wide, fine := Number(payload[1], payload[2]), Number(payload[3], payload[4]);
        reply := [0xBB, 0] + payload[1..];
        if ValidGeometry(wide, fine) {
          angle, resolution := wide, fine;
          reply := [0xBB, 1] + payload[1..];
        }
      } else if (|payload| == 33 || |payload| == 35) && payload[0] == 0x77 && mode == 0 {
        config := payload[1..];
        reply := [0xF7, 1] + payload[1..];
      }
    }

    /** The loop over the received frames. */
    method AnswerAll(events: seq<Event>) returns (raised: bool)
      modifies this`mode, this`config, this`angle, this`resolution, this`deviceBaud
      modifies this`nakNext, this`silenceNext, this`queue
      ensures var h := HandleFrames(old(Value()), events);
        && Value() == h.scanner && raised == h.raised
        && Flatten(queue) == Flatten(old(queue)) + h.output
    {
      hide HandleFrame, Flatten;
      ghost var start, goal := Flatten(queue), HandleFrames(Value(), events);
      ghost var sent: Bytes := [];
      AppendNothing(start);
      raised := false;
      for i := 0 to |events|
        invariant Flatten(queue) == start + sent
        invariant Continues(goal, sent, HandleFrames(Value(), events[i..]))
      {
        ghost var h := HandleFrame(Value(), events[i]);
        ghost var later := HandleFrames(h.scanner, events[i + 1..]).output;
        assert events[i..][1..] == events[i + 1..];
        raised := Answer(events[i]);
        Regroup(start, sent, h.output);
        Regroup(sent, h.output, later);
        sent := sent + h.output;
        if raised {
          return;
        }
      }
      AppendNothing(sent);
    }

    method Write(data: Bytes) returns (raised: bool)
      modifies this, incoming
      ensures var h := WriteScanner(old(Value()), old(baud), data);
        && Value() == h.scanner && raised == h.raised
        && Flatten(queue) == Flatten(old(queue)) + h.output
      ensures baud == old(baud)
    {
      hide HandleFrames, Flatten, Tokens, NoteAll;
      AppendNothing(Flatten(queue));
      if baud != deviceBaud {
        return false;
      }
      ghost var before := incoming.Value();
      ghost var s := Tokens(before.buffer + data, before.offset);
      var events := incoming.FeedBytes(data);
      EventsOfNotes(before.log, s.items);
      OffsetsIrrelevant(before.buffer + data, before.offset, 0);
      assert events == incoming.emitted[|before.log.events|..] == Reported(s.items);
      raised := AnswerAll(events);
    }
  }

  ghost predicate Continues(goal: Handled, sent: Bytes, t: Handled) {
    goal == Handled(t.scanner, sent + t.output, t.raised)
  }

  /** Events do not depend on the offset the framer has reached. */
  lemma {:induction false} OffsetsIrrelevant(buffer: Bytes, a: nat, b: nat)
    ensures Reported(Tokens(buffer, a).items) == Reported(Tokens(buffer, b).items)
    ensures Tokens(buffer, a).rest == Tokens(buffer, b).rest
    decreases |buffer|
  {
    hide Decide, Tokens, EventsOf;
    if Decide(buffer).Take? {
      TokensTake(buffer, a);
      TokensTake(buffer, b);
      var d := Decide(buffer);
      OffsetsIrrelevant(buffer[d.size..], a + d.size, b + d.size);
      ReportedCons(Item(a, d.token, d.size), Tokens(buffer[d.size..], a + d.size).items);
      ReportedCons(Item(b, d.token, d.size), Tokens(buffer[d.size..], b + d.size).items);
    } else {
      TokensWait(buffer, a);
      TokensWait(buffer, b);
    }
  }

  // ---------------------------------------------------------------- a fault-free scanner

  predicate FaultFree(sc: Scanner) {
    && sc.nakNext == 0 && sc.silenceNext == 0 && !sc.omitAck && sc.incoming == []
    && Reportable(sc) && ValidGeometry(sc.angle, sc.resolution) && Severity(sc.status) < 3
  }

  /** The scanner after it has carried out one command. */
  function Obeyed(sc: Scanner, payload: Bytes): Scanner
    requires payload == [0x31] ==> Reportable(sc)
  {
    var r := React(sc, payload);
    if r.newBaud.Some? then r.scanner.(baud := r.newBaud.value) else r.scanner
  }

  function ReplyTo(sc: Scanner, payload: Bytes): (reply: Bytes)
    requires payload == [0x31] ==> Reportable(sc)
    ensures 2 <= |reply| <= 161
  {
    React(sc, payload).reply + [sc.status]
  }

  /** At matching baud rates every telegram draws an ACK and one framed reply. */
  lemma FaultFreeAnswers(sc: Scanner, payload: Bytes, address: Byte)
    requires FaultFree(sc) && address <= 1 && 1 <= |payload| <= MAX_PAYLOAD
    ensures WriteScanner(sc, sc.baud, Wire(payload, address))
         == Handled(Obeyed(sc, payload), LineBytes([Byte06, Message(0x81, ReplyTo(sc, payload))]), false)
  {
    hide Tokens, Reported, React, Wire;
    var request := [Message(address, payload)];
    assert LineBytes(request) == Wire(payload, address) by {
      assert request[1..] == [];
      AppendNothing(Wire(payload, address));
    }
    TokensOfSent(request, 0);
    AppendNothing(Wire(payload, address));
    var event := Telegram(Frame(address, payload, Wire(payload, address)));
    assert LineEvents(request) == [event];
    var h := HandleFrame(sc, event);
    assert sc.(incoming := []) == sc;
    assert [event][1..] == [];
    AppendNothing(h.output);
    assert HandleFrames(sc, [event]) == h;
    assert WriteScanner(sc, sc.baud, Wire(payload, address)) == h;
    assert h.scanner == Obeyed(sc, payload);
    var reply := Message(0x81, ReplyTo(sc, payload));
    assert LineBytes([Byte06, reply]) == [ACK] + Wire(ReplyTo(sc, payload), 0x81) by {
      assert [Byte06, reply][1..] == [reply] && [reply][1..] == [];
      AppendNothing(Wire(ReplyTo(sc, payload), 0x81));
    }
  }

  /** What a B1 from this scanner decodes to. */
  function Report(sc: Scanner): DeviceStatus
    requires Reportable(sc)
  {
    DeviceStatus(sc.mode, 0, sc.angle, sc.resolution, sc.baud, sc.config[6] == 1, sc.config[5], false, 0)
  }

  lemma StatusReadsBack(sc: Scanner, frame: Frame)
    requires FaultFree(sc)
    ensures DecodeStatus(Response(0xB1, StatusData(sc), sc.status, frame)) == Ok(Report(sc))
  {
    var data := StatusData(sc);
    assert forall i | 0 <= i < 7 :: data[i] == VERSION[i];
    assert forall i | 0 <= i < 7 :: VERSION[i] < 0x80;
    assert Number(data[106], data[107]) == sc.angle && Number(data[108], data[109]) == sc.resolution;
    assert Number(data[115], data[116]) == StatusBaudCode(sc.baud);
    assert data[121] == sc.config[6] && data[101] == sc.config[5] && data[7] == sc.mode && data[8] == 0;
    assert data[118] == 0 && data[119] == 0;
  }
}

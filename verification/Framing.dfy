/** Telegram framing of protocol/framing.py: `encode`, and what a `Framer` makes of received bytes. */
module Framing {
  import opened Bytes
  import Crc
  import opened IncrementalScan

  const STX: Byte := 0x02
  const ACK: Byte := 0x06
  const NAK: Byte := 0x15
  const MAX_PAYLOAD: nat := 808

  datatype Frame = Frame(address: Byte, payload: Bytes, raw: Bytes)

  datatype Event = Acknowledged | Refused | Telegram(frame: Frame)

  datatype FrameStats = FrameStats(
    frames: nat, crcErrors: nat, invalidLengths: nat, noiseBytes: nat, truncatedFrames: nat)

  datatype FrameCandidate = FrameCandidate(offset: nat, raw: Bytes, crcExpected: Crc.Word, crcReceived: Crc.Word)

  /** `encode`; None where it raises ValueError. */
  function Encode(payload: Bytes, address: int): Option<Bytes> {
    if 0 <= address <= 255 && 1 <= |payload| <= MAX_PAYLOAD then Some(Wire(payload, address)) else None
  }

  function Wire(payload: Bytes, address: Byte): (raw: Bytes)
    requires 1 <= |payload| <= MAX_PAYLOAD
    ensures |raw| == |payload| + 6
  {
    var message := [STX, address] + Split(|payload|) + payload;
    message + Crc.WordBytes(Crc.Crc16(message))
  }

  /** The length field of a buffer that holds a whole header. */
  function Declared(buffer: Bytes): nat
    requires |buffer| >= 4
  {
    Number(buffer[2], buffer[3])
  }

  /** The checksum word that closes a complete candidate. */
  function Received(raw: Bytes): Crc.Word
    requires |raw| >= 2
  {
    Crc.Join(raw[|raw| - 2], raw[|raw| - 1])
  }

  function Expected(raw: Bytes): Crc.Word
    requires |raw| >= 2
  {
    Crc.Crc16(raw[..|raw| - 2])
  }

  predicate CrcValid(raw: Bytes)
    requires |raw| >= 2
  {
    Expected(raw) == Received(raw)
  }

  function FrameOf(raw: Bytes): Frame
    requires |raw| >= 6
  {
    Frame(raw[1], raw[4..|raw| - 2], raw)
  }

  // ---------------------------------------------------------------- one decision

  datatype Token =
    | Control(positive: bool)
    | Noise
    | BadLength
    | BadCrc(raw: Bytes)
    | Good(raw: Bytes)
    | Lost

  /** What the loop body of `feed` does with the front of the buffer. */
  function Decide(buffer: Bytes): Decision<Token> {
    if buffer == [] then Wait
    else if buffer[0] == ACK then Take(Control(true), 1)
    else if buffer[0] == NAK then Take(Control(false), 1)
    else if buffer[0] != STX then Take(Noise, 1)
    else if |buffer| < 4 then Wait
    else if !(1 <= Declared(buffer) <= MAX_PAYLOAD) then Take(BadLength, 1)
    else if |buffer| < Declared(buffer) + 6 then Wait
    else
      var raw := buffer[..Declared(buffer) + 6];
      if CrcValid(raw) then Take(Good(raw), |raw|) else Take(BadCrc(raw), 1)
  }

  lemma DecideStable()
    ensures Stable(Decide)
  {
    forall b: Bytes, c: Bytes | Decide(b).Take?
      ensures Decide(b + c) == Decide(b)
    {
      DecideMore(b, c);
    }
  }

  lemma DecideMore(b: Bytes, c: Bytes)
    requires Decide(b).Take?
    ensures Decide(b + c) == Decide(b)
  {
    hide CrcValid;
    if b[0] == STX && 1 <= Declared(b) <= MAX_PAYLOAD {
      assert (b + c)[..Declared(b) + 6] == b[..Declared(b) + 6];
    }
  }

  function Tokens(buffer: Bytes, offset: nat): (s: Scanned<Token>)
    ensures Decide(s.rest) == Wait && |s.rest| <= |buffer|
  {
    DecideStable();
    Scan(Decide, buffer, offset)
  }

  lemma TokensTake(buffer: Bytes, offset: nat)
    requires Decide(buffer).Take?
    ensures var d := Decide(buffer);
      && 1 <= d.size <= |buffer|
      && Tokens(buffer, offset)
         == Prepend(Item(offset, d.token, d.size), Tokens(buffer[d.size..], offset + d.size))
  {
    hide Decide;
    DecideStable();
    ScanTake(Decide, buffer, offset, Decide(buffer).token, Decide(buffer).size);
  }

  lemma TokensWait(buffer: Bytes, offset: nat)
    requires Decide(buffer) == Wait
    ensures Tokens(buffer, offset) == Scanned([], buffer)
  {
    hide Decide;
    DecideStable();
    ScanWait(Decide, buffer, offset);
  }

  // ---------------------------------------------------------------- what a framer reports

  /** Everything a framer has reported: events returned, statistics, candidates observed. */
  datatype Log = Log(events: seq<Event>, stats: FrameStats, candidates: seq<FrameCandidate>)

  function Candidate(offset: nat, raw: Bytes): FrameCandidate
    requires |raw| >= 2
  {
    FrameCandidate(offset, raw, Expected(raw), Received(raw))
  }

  function ControlEvent(positive: bool): Event {
    if positive then Acknowledged else Refused
  }

  function Note(log: Log, item: Item<Token>): Log {
    match item.token
    case Control(positive) => log.(events := log.events + [ControlEvent(positive)])
    case Noise => log.(stats := log.stats.(noiseBytes := log.stats.noiseBytes + 1))
    case BadLength => log.(stats := log.stats.(invalidLengths := log.stats.invalidLengths + 1))
    case BadCrc(raw) =>
      if |raw| < 6 then log else
        log.(stats := log.stats.(crcErrors := log.stats.crcErrors + 1),
             candidates := log.candidates + [Candidate(item.offset, raw)])
    case Good(raw) =>
      if |raw| < 6 then log else
        log.(events := log.events + [Telegram(FrameOf(raw))],
             stats := log.stats.(frames := log.stats.frames + 1),
             candidates := log.candidates + [Candidate(item.offset, raw)])
    case Lost => log.(stats := log.stats.(truncatedFrames := log.stats.truncatedFrames + 1))
  }

  ghost function NoteAll(log: Log, items: seq<Item<Token>>): Log
    decreases |items|
  {
    if items == [] then log else NoteAll(Note(log, items[0]), items[1..])
  }

  lemma {:induction false} NoteAllConcat(log: Log, a: seq<Item<Token>>, b: seq<Item<Token>>)
    ensures NoteAll(log, a + b) == NoteAll(NoteAll(log, a), b)
    decreases |a|
  {
    hide Note;
    if a == [] {
      assert a + b == b;
    } else {
      assert (a + b)[1..] == a[1..] + b;
      NoteAllConcat(Note(log, a[0]), a[1..], b);
    }
  }

  lemma NoteAllCons(log: Log, item: Item<Token>, items: seq<Item<Token>>)
    ensures NoteAll(log, [item] + items) == NoteAll(Note(log, item), items)
  {
    assert ([item] + items)[1..] == items;
  }

  // ---------------------------------------------------------------- the framer as a value

  datatype State = State(buffer: Bytes, offset: nat, log: Log)

  const NO_STATS := FrameStats(0, 0, 0, 0, 0)
  const FRESH := State([], 0, Log([], NO_STATS, []))

  /** Run the loop until it waits. */
  ghost function Advance(buffer: Bytes, offset: nat, log: Log): State {
    var s := Tokens(buffer, offset);
    State(s.rest, offset + |buffer| - |s.rest|, NoteAll(log, s.items))
  }

  ghost function Feed(st: State, data: Bytes): State {
    Advance(st.buffer + data, st.offset, st.log)
  }

  ghost function Expire(st: State): State {
    if st.buffer == [] then st else
      Advance(st.buffer[1..], st.offset + 1, Note(st.log, Item(st.offset, Lost, 1)))
  }

  /** `Framer`.  `emitted` is the ghost list of all events its calls have returned. */
  class Framer {
    var buffer: Bytes
    var offset: nat
    var stats: FrameStats
    var candidates: seq<FrameCandidate>  // what the observer has been shown
    ghost var emitted: seq<Event>

    ghost function Value(): State
      reads this
    {
      State(buffer, offset, Log(emitted, stats, candidates))
    }

    constructor ()
      ensures Value() == FRESH
    {
      buffer, offset, stats, candidates, emitted := [], 0, NO_STATS, [], [];
    }

    method Discard(count: nat)
      requires count <= |buffer|
      modifies this`buffer, this`offset
      ensures buffer == old(buffer[count..]) && offset == old(offset) + count
    {
      buffer := buffer[count..];
      offset := offset + count;
    }

    /** The body of the loop in `feed`; `more` is false where the source leaves the loop. */
    method Iterate() returns (events: seq<Event>, more: bool)
      requires buffer != []
      modifies this
      ensures more == Decide(old(buffer)).Take?
      ensures !more ==> Value() == old(Value()) && events == []
      ensures more ==> Decide(old(buffer)).size <= |old(buffer)| && Value() == Turn(old(Value()))
      ensures more ==> |buffer| < old(|buffer|)
      ensures emitted == old(emitted) + events
    {
      hide Crc.Crc16, Crc.Join;
      events := [];
      var first := buffer[0];
      if first == ACK || first == NAK {
        events := [if first == ACK then Acknowledged else Refused];
        emitted := emitted + events;
        Discard(1);
        return events, true;
      }
      if first != STX {
        stats := stats.(noiseBytes := stats.noiseBytes + 1);
        Discard(1);
        return events, true;
      }
      if |buffer| < 4 {
        return events, false;
      }
      var length := Number(buffer[2], buffer[3]);
      if !(1 <= length <= MAX_PAYLOAD) {
        stats := stats.(invalidLengths := stats.invalidLengths + 1);
        Discard(1);
        return events, true;
      }
      var total := length + 6;
      if |buffer| < total {
        return events, false;
      }
      var raw := buffer[..total];
      var candidate := FrameCandidate(offset, raw, Crc.Crc16(raw[..total - 2]), Crc.Join(raw[total - 2], raw[total - 1]));
      candidates := candidates + [candidate];
      if candidate.crcExpected != candidate.crcReceived {
        stats := stats.(crcErrors := stats.crcErrors + 1);
        Discard(1);
        return events, true;
      }
      events := [Telegram(Frame(raw[1], raw[4..total - 2], raw))];
      emitted := emitted + events;
      stats := stats.(frames := stats.frames + 1);
      Discard(total);
      return events, true;
    }

    method FeedBytes(data: Bytes) returns (events: seq<Event>)
      modifies this
      ensures Value() == Feed(old(Value()), data)
      ensures emitted == old(emitted) + events
    {
      hide Advance, Decide, Turn;
      buffer := buffer + data;
      events := [];
      ghost var goal := Advance(buffer, offset, Value().log);
      while buffer != []
        invariant emitted == old(emitted) + events
        invariant Advance(buffer, offset, Value().log) == goal
        decreases |buffer|
      {
        ghost var before := Value();
        var reported, more := Iterate();
        events := events + reported;
        if !more {
          AdvanceWait(before);
          return;
        }
        AdvanceTake(before);
      }
      WaitForFirst();
      AdvanceWait(Value());
    }

    method ExpireStale() returns (events: seq<Event>)
      modifies this
      ensures Value() == Expire(old(Value()))
      ensures emitted == old(emitted) + events
    {
      if buffer == [] {
        return [];
      }
      stats := stats.(truncatedFrames := stats.truncatedFrames + 1);
      Discard(1);
      ghost var waiting := Value();
      events := FeedBytes([]);
      assert waiting.buffer + [] == waiting.buffer;
    }

    method Reset()
      modifies this`buffer, this`offset
      ensures buffer == [] && offset == 0
    {
      buffer := [];
      offset := 0;
    }
  }

  lemma WaitForFirst()
    ensures Decide([]) == Wait
  {
  }

  lemma AdvanceWait(st: State)
    requires Decide(st.buffer) == Wait
    ensures Advance(st.buffer, st.offset, st.log) == st
  {
    TokensWait(st.buffer, st.offset);
  }

  /** One iteration of the loop. */
  ghost function Turn(st: State): State
    requires Decide(st.buffer).Take? && Decide(st.buffer).size <= |st.buffer|
  {
    var d := Decide(st.buffer);
    State(st.buffer[d.size..], st.offset + d.size, Note(st.log, Item(st.offset, d.token, d.size)))
  }

  lemma AdvanceTake(st: State)
    requires Decide(st.buffer).Take?
    ensures Decide(st.buffer).size <= |st.buffer|
    ensures Advance(st.buffer, st.offset, st.log) == Advance(Turn(st).buffer, Turn(st).offset, Turn(st).log)
  {
    hide Decide, Note;
    TokensTake(st.buffer, st.offset);
    var d := Decide(st.buffer);
    var next := Turn(st);
    NoteAllCons(st.log, Item(st.offset, d.token, d.size), Tokens(next.buffer, next.offset).items);
  }
}

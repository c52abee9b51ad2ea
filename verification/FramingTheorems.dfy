/** What the `Framer` guarantees about every byte stream, however it is cut into reads. */
module FramingTheorems {
  import opened Bytes
  import Crc
  import opened IncrementalScan
  import opened Framing

  // ---------------------------------------------------------------- fragmentation

  lemma TokensResume(a: Bytes, b: Bytes, offset: nat)
    ensures var s := Tokens(a, offset);
            var t := Tokens(s.rest + b, offset + |a| - |s.rest|);
            Tokens(a + b, offset) == Scanned(s.items + t.items, t.rest)
  {
    hide Decide, Stable, Scan;
    DecideStable();
    ScanResume(Decide, a, b, offset);
  }

  /** Feeding two pieces is feeding their concatenation. */
  lemma FeedResume(st: State, a: Bytes, b: Bytes)
    ensures Feed(Feed(st, a), b) == Feed(st, a + b)
  {
    hide Decide, Tokens, NoteAll;
    TokensResume(st.buffer + a, b, st.offset);
    assert (st.buffer + a) + b == st.buffer + (a + b);
    var s := Tokens(st.buffer + a, st.offset);
    var t := Tokens(s.rest + b, st.offset + |st.buffer + a| - |s.rest|);
    NoteAllConcat(st.log, s.items, t.items);
  }

  ghost function FeedAll(st: State, chunks: seq<Bytes>): State
    decreases |chunks|
  {
    if chunks == [] then st else FeedAll(Feed(st, chunks[0]), chunks[1..])
  }

  /** Same events, candidates, statistics, offset and buffer for every way of cutting the stream. */
  lemma {:induction false} FeedFragmented(st: State, chunks: seq<Bytes>)
    requires Decide(st.buffer) == Wait
    ensures FeedAll(st, chunks) == Feed(st, Flatten(chunks))
    decreases |chunks|
  {
    hide Decide, Feed;
    if chunks == [] {
      FeedNothing(st);
    } else {
      FeedWaits(st, chunks[0]);
      FeedFragmented(Feed(st, chunks[0]), chunks[1..]);
      FeedResume(st, chunks[0], Flatten(chunks[1..]));
    }
  }

  lemma FeedNothing(st: State)
    requires Decide(st.buffer) == Wait
    ensures Feed(st, []) == st
  {
    assert st.buffer + [] == st.buffer;
    AdvanceWait(st);
  }

  lemma FeedWaits(st: State, data: Bytes)
    ensures Decide(Feed(st, data).buffer) == Wait
  {
  }

  // ---------------------------------------------------------------- the one-shot reference

  /** Some legal payload and address encode to exactly these bytes. */
  ghost predicate IsTelegram(raw: Bytes) {
    exists payload: Bytes, address: Byte :: Encode(payload, address) == Some(raw)
  }

  /** The checks of `feed` accept exactly the encodings. */
  predicate Accepts(raw: Bytes) {
    && |raw| >= 7
    && raw[0] == STX
    && 1 <= Declared(raw) <= MAX_PAYLOAD
    && |raw| == Declared(raw) + 6
    && CrcValid(raw)
  }

  lemma WireAccepted(payload: Bytes, address: Byte)
    requires 1 <= |payload| <= MAX_PAYLOAD
    ensures Accepts(Wire(payload, address))
    ensures FrameOf(Wire(payload, address)) == Frame(address, payload, Wire(payload, address))
  {
    hide Crc.Crc16, Crc.Join;
    var message: Bytes := [STX, address] + Split(|payload|) + payload;
    var raw := Wire(payload, address);
    assert raw[..|raw| - 2] == message;
    assert raw[4..|raw| - 2] == payload;
  }

  lemma AcceptedIsWire(raw: Bytes)
    requires Accepts(raw)
    ensures Wire(raw[4..|raw| - 2], raw[1]) == raw
  {
    hide Crc.Crc16;
    var payload := raw[4..|raw| - 2];
    var message: Bytes := [STX, raw[1]] + Split(|payload|) + payload;
    assert raw[..|raw| - 2] == message;
    var tail := Crc.WordBytes(Crc.Crc16(message));
    WordBytesUnique(raw[|raw| - 2], raw[|raw| - 1], tail[0], tail[1]);
    assert raw == raw[..|raw| - 2] + [raw[|raw| - 2], raw[|raw| - 1]];
  }

  lemma WordBytesUnique(a: Byte, b: Byte, c: Byte, d: Byte)
    requires Crc.Join(a, b) == Crc.Join(c, d)
    ensures a == c && b == d
  {
    assert Crc.Join(a, b)[..8] == Octet(a) && Crc.Join(c, d)[..8] == Octet(c);
    assert Crc.Join(a, b)[8..] == Octet(b) && Crc.Join(c, d)[8..] == Octet(d);
    OctetInjective(a, c);
    OctetInjective(b, d);
  }

  lemma TelegramsAreAccepted(raw: Bytes)
    ensures IsTelegram(raw) <==> Accepts(raw)
  {
    hide Wire, CrcValid;
    if IsTelegram(raw) {
      var payload: Bytes, address: Byte :| Encode(payload, address) == Some(raw);
      WireAccepted(payload, address);
    }
    if Accepts(raw) {
      AcceptedIsWire(raw);
      assert Encode(raw[4..|raw| - 2], raw[1]) == Some(raw);
    }
  }

  /**
   Left to right over the whole capture: a control byte is reported, a complete encoded telegram
   is reported and jumped over, every other byte is skipped.
   */
  ghost function Reference(stream: Bytes): seq<Event>
    decreases |stream|
  {
    if stream == [] then []
    else if stream[0] == ACK then [Acknowledged] + Reference(stream[1..])
    else if stream[0] == NAK then [Refused] + Reference(stream[1..])
    else if exists n :: TelegramOfSize(stream, n) then
      var n :| TelegramOfSize(stream, n);
      [Telegram(FrameOf(stream[..n]))] + Reference(stream[n..])
    else Reference(stream[1..])
  }

  ghost predicate TelegramOfSize(stream: Bytes, n: int) {
    6 < n <= |stream| && IsTelegram(stream[..n])
  }

  /** A valid telegram starts here iff the framer takes it, and its size is the declared one. */
  lemma DecideFindsTelegram(stream: Bytes, n: int)
    requires stream != [] && stream[0] == STX
    ensures TelegramOfSize(stream, n) ==> Decide(stream) == Take(Good(stream[..n]), n)
    ensures Decide(stream).Take? && Decide(stream).token.Good?
            ==> TelegramOfSize(stream, Decide(stream).size)
  {
    hide CrcValid;
    if 6 < n <= |stream| {
      TelegramsAreAccepted(stream[..n]);
    }
    if Decide(stream).Take? && Decide(stream).token.Good? {
      TelegramsAreAccepted(Decide(stream).token.raw);
    }
  }

  lemma {:induction false} EventsOfNotes(log: Log, items: seq<Item<Token>>)
    ensures NoteAll(log, items).events == log.events + Reported(items)
    decreases |items|
  {
    if items == [] {
      assert log.events + [] == log.events;
    } else {
      EventsOfNotes(Note(log, items[0]), items[1..]);
      assert Note(log, items[0]).events == log.events + EventsOf(items[0].token);
      assert (log.events + EventsOf(items[0].token)) + Reported(items[1..])
          == log.events + (EventsOf(items[0].token) + Reported(items[1..]));
    }
  }

  function EventsOf(token: Token): seq<Event> {
    match token
    case Control(positive) => [ControlEvent(positive)]
    case Good(raw) => if |raw| < 6 then [] else [Telegram(FrameOf(raw))]
    case _ => []
  }

  function Reported(items: seq<Item<Token>>): seq<Event> {
    if items == [] then [] else EventsOf(items[0].token) + Reported(items[1..])
  }

  lemma ReportedCons(item: Item<Token>, items: seq<Item<Token>>)
    ensures Reported([item] + items) == EventsOf(item.token) + Reported(items)
  {
    assert ([item] + items)[1..] == items;
  }

  ghost function Swept(stream: Bytes, offset: nat): seq<Item<Token>> {
    DecideStable();
    Sweep(Decide, Lost, stream, offset)
  }

  ghost function GivenUp(rest: Bytes, offset: nat): seq<Item<Token>> {
    DecideStable();
    GiveUp(Decide, Lost, rest, offset)
  }

  /** What the first byte of a stream contributes, and where the reference goes on. */
  lemma ReferenceStep(stream: Bytes)
    requires stream != []
    ensures Decide(stream) == Wait ==> Reference(stream) == Reference(stream[1..])
    ensures Decide(stream).Take? ==>
      && 1 <= Decide(stream).size <= |stream|
      && Reference(stream) == EventsOf(Decide(stream).token) + Reference(stream[Decide(stream).size..])
  {
    if stream[0] == STX {
      ReferenceAtStx(stream);
    } else if stream[0] == ACK || stream[0] == NAK {
      hide TelegramOfSize;
    } else {
      OnlyStxStarts(stream);
      ReferenceSkips(stream);
      hide Reference, TelegramOfSize;
    }
  }

  lemma OnlyStxStarts(stream: Bytes)
    requires stream != [] && stream[0] != STX
    ensures forall n :: !TelegramOfSize(stream, n)
  {
    hide CrcValid, Wire, IsTelegram;
    forall n
      ensures !TelegramOfSize(stream, n)
    {
      if 6 < n <= |stream| {
        TelegramsAreAccepted(stream[..n]);
      }
    }
  }

  lemma ReferenceSkips(stream: Bytes)
    requires stream != [] && stream[0] != ACK && stream[0] != NAK && forall n :: !TelegramOfSize(stream, n)
    ensures Reference(stream) == Reference(stream[1..])
  {
    hide TelegramOfSize;
  }

  lemma ReferenceJumps(stream: Bytes) returns (n: nat)
    requires stream != [] && stream[0] == STX && exists n :: TelegramOfSize(stream, n)
    ensures TelegramOfSize(stream, n)
    ensures Reference(stream) == [Telegram(FrameOf(stream[..n]))] + Reference(stream[n..])
  {
    hide IsTelegram;
    n :| TelegramOfSize(stream, n) && Reference(stream) == [Telegram(FrameOf(stream[..n]))] + Reference(stream[n..]);
  }

  lemma ReferenceAtStx(stream: Bytes)
    requires stream != [] && stream[0] == STX
    ensures Decide(stream) == Wait ==> Reference(stream) == Reference(stream[1..])
    ensures Decide(stream).Take? ==>
      && 1 <= Decide(stream).size <= |stream|
      && Reference(stream) == EventsOf(Decide(stream).token) + Reference(stream[Decide(stream).size..])
  {
    hide Reference, IsTelegram, CrcValid;
    if exists n :: TelegramOfSize(stream, n) {
      var n := ReferenceJumps(stream);
      DecideFindsTelegram(stream, n);
    } else {
      DecideFindsTelegram(stream, 0);
      ReferenceSkips(stream);
    }
  }

  lemma {:induction false} SweepIsReference(stream: Bytes, offset: nat)
    ensures Reported(Swept(stream, offset)) == Reference(stream)
    decreases |stream|
  {
    hide Decide, Reference, Sweep, Stable;
    DecideStable();
    match Decide(stream)
    case Wait =>
      SweepWait(Decide, Lost, stream, offset);
      if stream == [] {
        ReferenceOfNothing();
      } else {
        ReferenceStep(stream);
        SweepIsReference(stream[1..], offset + 1);
        ReportedCons(Item(offset, Lost, 1), Swept(stream[1..], offset + 1));
      }
    case Take(token, size) =>
      SweepTake(Decide, Lost, stream, offset, token, size);
      ReferenceStep(stream);
      SweepIsReference(stream[size..], offset + size);
      ReportedCons(Item(offset, token, size), Swept(stream[size..], offset + size));
  }

  lemma ReferenceOfNothing()
    ensures Reference([]) == []
  {
  }

  /** `while framer.buffer: framer.expire()`. */
  ghost function ExpireAll(st: State): State
    decreases |st.buffer|
  {
    if st.buffer == [] then st else
      ExpireShrinks(st);
      ExpireAll(Expire(st))
  }

  /** Each call of `expire` on a non-empty buffer makes it strictly shorter. */
  lemma ExpireShrinks(st: State)
    requires st.buffer != []
    ensures |Expire(st).buffer| < |st.buffer|
  {
  }

  lemma GivenUpStep(rest: Bytes, offset: nat)
    ensures GivenUp([], offset) == []
    ensures rest != [] ==>
      var s := Tokens(rest[1..], offset + 1);
      GivenUp(rest, offset) == [Item(offset, Lost, 1)] + (s.items + GivenUp(s.rest, offset + |rest| - |s.rest|))
  {
    hide Decide, Stable, Scan;
  }

  lemma {:induction false} ExpireAllNotes(st: State)
    ensures ExpireAll(st).buffer == []
    ensures ExpireAll(st).log == NoteAll(st.log, GivenUp(st.buffer, st.offset))
    decreases |st.buffer|
  {
    hide Decide, Note, Tokens, GivenUp;
    GivenUpStep(st.buffer, st.offset);
    if st.buffer != [] {
      hide NoteAll;
      ExpireShrinks(st);
      ExpireAllNotes(Expire(st));
      var s := Tokens(st.buffer[1..], st.offset + 1);
      var more := GivenUp(s.rest, st.offset + |st.buffer| - |s.rest|);
      NoteAllCons(st.log, Item(st.offset, Lost, 1), s.items + more);
      NoteAllConcat(Note(st.log, Item(st.offset, Lost, 1)), s.items, more);
    }
  }

  lemma SweptIsTokensThenGivenUp(stream: Bytes, offset: nat)
    ensures var s := Tokens(stream, offset);
      Swept(stream, offset) == s.items + GivenUp(s.rest, offset + |stream| - |s.rest|)
  {
    hide Decide, Stable, Scan, Sweep, GiveUp;
    DecideStable();
    GiveUpIsSweep(Decide, Lost, stream, offset);
  }

  /**
   Any cutting of any stream, then the end-of-capture loop: the events are exactly those of the
   one-shot reference, and the buffer ends empty.
   */
  lemma CaptureIsReference(chunks: seq<Bytes>)
    ensures var done := ExpireAll(FeedAll(FRESH, chunks));
      done.buffer == [] && done.log.events == Reference(Flatten(chunks))
  {
    hide Decide, Reference, Tokens, Swept, GivenUp, NoteAll, FeedAll, ExpireAll, Flatten;
    var stream := Flatten(chunks);
    WaitForFirst();
    FeedFragmented(FRESH, chunks);
    assert FRESH.buffer + stream == stream;
    SweptIsTokensThenGivenUp(stream, 0);
    SweepIsReference(stream, 0);
    ExpireAllNotes(Feed(FRESH, stream));
    var s := Tokens(stream, 0);
    NoteAllConcat(FRESH.log, s.items, GivenUp(s.rest, |stream| - |s.rest|));
    EventsOfNotes(FRESH.log, Swept(stream, 0));
  }
}

/** Byte accounting of the `Framer` over arbitrary runs, and exact recovery of what was encoded. */
module FramingAccounts {
  import opened Bytes
  import Crc
  import opened IncrementalScan
  import opened Framing
  import opened FramingTheorems

  // ---------------------------------------------------------------- conservation

  datatype Call = FeedCall(data: Bytes) | ExpireCall

  ghost function After(st: State, calls: seq<Call>): State
    decreases |calls|
  {
    if calls == [] then st else
      After(if calls[0].FeedCall? then Feed(st, calls[0].data) else Expire(st), calls[1..])
  }

  function Fed(calls: seq<Call>): nat {
    if calls == [] then 0 else (if calls[0].FeedCall? then |calls[0].data| else 0) + Fed(calls[1..])
  }

  function EventBytes(event: Event): nat {
    if event.Telegram? then |event.frame.raw| else 1
  }

  function EventsBytes(events: seq<Event>): nat {
    if events == [] then 0 else EventsBytes(events[..|events| - 1]) + EventBytes(events[|events| - 1])
  }

  /** Bytes the report answers for: controls, whole frames, and one byte per rejected position. */
  function Accounted(log: Log): nat {
    EventsBytes(log.events)
    + log.stats.noiseBytes + log.stats.crcErrors + log.stats.invalidLengths + log.stats.truncatedFrames
  }

  lemma EventsBytesSnoc(events: seq<Event>, event: Event)
    ensures EventsBytes(events + [event]) == EventsBytes(events) + EventBytes(event)
  {
    assert (events + [event])[..|events|] == events;
  }

  /** Each turn of the loop accounts for exactly the bytes it discards. */
  lemma TurnAccounts(st: State)
    requires Decide(st.buffer).Take?
    ensures Decide(st.buffer).size <= |st.buffer|
    ensures Accounted(Turn(st).log) == Accounted(st.log) + Decide(st.buffer).size
  {
    hide CrcValid, Expected, Received;
    var d := Decide(st.buffer);
    if d.token.Control? {
      EventsBytesSnoc(st.log.events, ControlEvent(d.token.positive));
    } else if d.token.Good? {
      EventsBytesSnoc(st.log.events, Telegram(FrameOf(d.token.raw)));
    }
  }

  lemma {:induction false} AdvanceAccounts(st: State)
    ensures var done := Advance(st.buffer, st.offset, st.log);
      Accounted(done.log) + |done.buffer| == Accounted(st.log) + |st.buffer|
    decreases |st.buffer|
  {
    hide Decide, Note, Advance, Accounted;
    if Decide(st.buffer) == Wait {
      AdvanceWait(st);
    } else {
      TokensTake(st.buffer, st.offset);
      TurnAccounts(st);
      AdvanceTake(st);
      AdvanceAccounts(Turn(st));
    }
  }

  lemma FeedAccounts(st: State, data: Bytes)
    ensures var next := Feed(st, data);
      && Accounted(next.log) + |next.buffer| == Accounted(st.log) + |st.buffer| + |data|
      && next.offset + |next.buffer| == st.offset + |st.buffer| + |data|
  {
    hide Decide, Note, Accounted;
    AdvanceAccounts(st.(buffer := st.buffer + data));
  }

  lemma ExpireAccounts(st: State)
    ensures var next := Expire(st);
      && Accounted(next.log) + |next.buffer| == Accounted(st.log) + |st.buffer|
      && next.offset + |next.buffer| == st.offset + |st.buffer|
  {
    hide Decide;
    if st.buffer != [] {
      AdvanceAccounts(State(st.buffer[1..], st.offset + 1, Note(st.log, Item(st.offset, Lost, 1))));
    }
  }

  /**
   Over every run of feeds and expires that starts with an empty buffer, the bytes fed are the
   bytes still buffered plus those the events and statistics added since then answer for, and
   `offset` counts exactly the bytes that left the buffer.
   */
  lemma {:induction false} BytesConserved(st: State, calls: seq<Call>)
    ensures var done := After(st, calls);
      && |st.buffer| + Fed(calls) == |done.buffer| + (Accounted(done.log) - Accounted(st.log))
      && st.offset + |st.buffer| + Fed(calls) == done.offset + |done.buffer|
    decreases |calls|
  {
    hide Feed, Expire, Accounted;
    if calls != [] {
      if calls[0].FeedCall? {
        FeedAccounts(st, calls[0].data);
        BytesConserved(Feed(st, calls[0].data), calls[1..]);
      } else {
        ExpireAccounts(st);
        BytesConserved(Expire(st), calls[1..]);
      }
    }
  }

  /** After every call the buffer is short and either empty or waiting behind an STX. */
  lemma {:induction false} BufferBounded(st: State, calls: seq<Call>)
    requires Decide(st.buffer) == Wait
    ensures var buffer := After(st, calls).buffer;
      |buffer| <= MAX_PAYLOAD + 5 && (buffer == [] || buffer[0] == STX)
    decreases |calls|
  {
    if calls != [] {
      hide Decide;
      BufferBounded(if calls[0].FeedCall? then Feed(st, calls[0].data) else Expire(st), calls[1..]);
    }
  }

  // ---------------------------------------------------------------- round trip

  /** What a sender puts on the line. */
  datatype Sent = Byte06 | Byte15 | Message(address: Byte, payload: Bytes)

  predicate Sendable(s: Sent) {
    s.Message? ==> 1 <= |s.payload| <= MAX_PAYLOAD
  }

  function SentBytes(s: Sent): Bytes
    requires Sendable(s)
  {
    match s
    case Byte06 => [ACK]
    case Byte15 => [NAK]
    case Message(address, payload) => Wire(payload, address)
  }

  function SentEvent(s: Sent): Event
    requires Sendable(s)
  {
    match s
    case Byte06 => Acknowledged
    case Byte15 => Refused
    case Message(address, payload) => Telegram(Frame(address, payload, Wire(payload, address)))
  }

  function LineBytes(sent: seq<Sent>): Bytes
    requires forall s | s in sent :: Sendable(s)
  {
    if sent == [] then [] else SentBytes(sent[0]) + LineBytes(sent[1..])
  }

  function LineEvents(sent: seq<Sent>): (events: seq<Event>)
    requires forall s | s in sent :: Sendable(s)
    ensures |events| == |sent|
    ensures forall i | 0 <= i < |sent| :: events[i] == SentEvent(sent[i])
  {
    if sent == [] then [] else [SentEvent(sent[0])] + LineEvents(sent[1..])
  }

  lemma DecideAccepted(raw: Bytes, after: Bytes)
    requires Accepts(raw)
    ensures Decide(raw + after) == Take(Good(raw), |raw|)
  {
    hide CrcValid;
    assert (raw + after)[..|raw|] == raw;
  }

  /** A telegram in progress keeps the framer waiting. */
  lemma PartWaits(raw: Bytes, c: nat)
    requires Accepts(raw) && c < |raw|
    ensures Decide(raw[..c]) == Wait
  {
    hide CrcValid;
  }

  /** A sent unit is recognised as a whole, whatever follows it on the line. */
  lemma SentDecided(s: Sent, after: Bytes)
    requires Sendable(s)
    ensures var d := Decide(SentBytes(s) + after);
      && d.Take? && d.size == |SentBytes(s)| && EventsOf(d.token) == [SentEvent(s)]
      && (d.token.Control? || (d.token.Good? && |d.token.raw| >= 6))
      && d.token.Good? == s.Message?
  {
    hide Wire, CrcValid;
    if s.Message? {
      hide Decide;
      WireAccepted(s.payload, s.address);
      DecideAccepted(Wire(s.payload, s.address), after);
    }
  }

  lemma NoteSent(log: Log, item: Item<Token>, event: Event)
    requires EventsOf(item.token) == [event]
    requires item.token.Control? || (item.token.Good? && |item.token.raw| >= 6)
    ensures Note(log, item).events == log.events + [event]
    ensures Note(log, item).stats
         == log.stats.(frames := log.stats.frames + (if item.token.Good? then 1 else 0))
  {
    hide Expected, Received;
    assert [event][0] == event;
    assert EventsOf(item.token)[0] == event;
  }

  lemma FeedUnit(st: State, s: Sent, after: Bytes)
    requires Sendable(s) && st.buffer == SentBytes(s) + after
    ensures Decide(st.buffer).Take? && Decide(st.buffer).size <= |st.buffer|
    ensures var next := Turn(st);
      && next.buffer == after
      && next.log.events == st.log.events + [SentEvent(s)]
      && next.log.stats == st.log.stats.(frames := st.log.stats.frames + (if s.Message? then 1 else 0))
  {
    hide Decide, EventsOf, SentBytes, SentEvent, Note;
    SentDecided(s, after);
    var d := Decide(st.buffer);
    NoteSent(st.log, Item(st.offset, d.token, d.size), SentEvent(s));
  }

  function MessagesIn(sent: seq<Sent>): nat {
    if sent == [] then 0 else (if sent[0].Message? then 1 else 0) + MessagesIn(sent[1..])
  }

  lemma {:induction false} AdvanceSent(st: State, sent: seq<Sent>)
    requires forall s | s in sent :: Sendable(s)
    requires st.buffer == LineBytes(sent)
    ensures var done := Advance(st.buffer, st.offset, st.log);
      && done.buffer == []
      && done.log.events == st.log.events + LineEvents(sent)
      && done.log.stats == st.log.stats.(frames := st.log.stats.frames + MessagesIn(sent))
    decreases |sent|
  {
    hide Decide, Advance, Turn, SentBytes, SentEvent;
    if sent == [] {
      WaitForFirst();
      AdvanceWait(st);
    } else {
      FeedUnit(st, sent[0], LineBytes(sent[1..]));
      AdvanceTake(st);
      AdvanceSent(Turn(st), sent[1..]);
      Regroup(st.log.events, [SentEvent(sent[0])], LineEvents(sent[1..]));
    }
  }

  /**
   Every interleaving of encoded telegrams and standalone controls, cut in any way, comes back as
   exactly that list, with no fault counted and nothing left in the buffer.
   */
  lemma RoundTrip(sent: seq<Sent>, chunks: seq<Bytes>)
    requires forall s | s in sent :: Sendable(s)
    requires Flatten(chunks) == LineBytes(sent)
    ensures var done := FeedAll(FRESH, chunks);
      && done.buffer == []
      && done.log.events == LineEvents(sent)
      && done.log.stats == NO_STATS.(frames := MessagesIn(sent))
  {
    hide Decide, LineEvents, LineBytes;
    WaitForFirst();
    FeedFragmented(FRESH, chunks);
    assert FRESH.buffer + Flatten(chunks) == Flatten(chunks);
    AdvanceSent(State(Flatten(chunks), 0, FRESH.log), sent);
    assert [] + LineEvents(sent) == LineEvents(sent);
  }

  lemma {:induction false} LineConcat(a: seq<Sent>, b: seq<Sent>)
    requires (forall s | s in a :: Sendable(s)) && (forall s | s in b :: Sendable(s))
    ensures forall s | s in a + b :: Sendable(s)
    ensures LineBytes(a + b) == LineBytes(a) + LineBytes(b)
    decreases |a|
  {
    hide SentBytes;
    if a == [] {
      assert a + b == b;
    } else {
      LineConcat(a[1..], b);
      assert (a + b)[1..] == a[1..] + b && (a + b)[0] == a[0];
      assert SentBytes(a[0]) + (LineBytes(a[1..]) + LineBytes(b)) == (SentBytes(a[0]) + LineBytes(a[1..])) + LineBytes(b);
    }
  }

  /** A prefix of one transmission keeps the framer waiting. */
  lemma SentWaits(s: Sent, x: Bytes, y: Bytes)
    requires Sendable(s) && |x| < |SentBytes(s)| && x + y == SentBytes(s)
    ensures Decide(x) == Wait
  {
    hide Decide, Accepts, Wire;
    if s.Message? {
      WireAccepted(s.payload, s.address);
      assert x == SentBytes(s)[..|x|];
      PartWaits(SentBytes(s), |x|);
    } else {
      assert x == [];
      WaitForFirst();
    }
  }

  /**
   When only the first part `x` of a transmission has been received, exactly its complete items
   have been reported, and what is left in the buffer goes on with `y`.
   */
  lemma {:induction false} PartOfLine(x: Bytes, y: Bytes, sent: seq<Sent>, offset: nat) returns (k: nat)
    requires forall s | s in sent :: Sendable(s)
    requires x + y == LineBytes(sent)
    ensures k <= |sent|
    ensures var t := Tokens(x, offset);
      t.rest + y == LineBytes(sent[k..]) && Reported(t.items) == LineEvents(sent[..k])
    decreases |sent|
  {
    hide Decide, Tokens, SentBytes, SentEvent;
    if sent == [] {
      k := 0;
      WaitForFirst();
      TokensWait(x, offset);
      return;
    }
    var first := SentBytes(sent[0]);
    var later := LineBytes(sent[1..]);
    if |x| < |first| {
      k := 0;
      assert x + first[|x|..] == first by {
        assert x == (x + y)[..|x|] == (first + later)[..|x|] == first[..|x|];
      }
      SentWaits(sent[0], x, first[|x|..]);
      TokensWait(x, offset);
      assert sent[0..] == sent && sent[..0] == [];
    } else {
      var rest := x[|first|..];
      assert x == first + rest && rest + y == later by {
        assert x == (x + y)[..|x|] == (first + later)[..|x|];
        assert rest + y == (x + y)[|first|..] == (first + later)[|first|..];
      }
      SentDecided(sent[0], rest);
      TokensTake(x, offset);
      k := PartOfLine(rest, y, sent[1..], offset + |first|);
      ReportedCons(Item(offset, Decide(x).token, |first|), Tokens(rest, offset + |first|).items);
      k := k + 1;
      assert sent[k..] == sent[1..][k - 1..];
      assert LineEvents(sent[..k]) == [SentEvent(sent[0])] + LineEvents(sent[1..][..k - 1]);
    }
  }

  /** The same for the token list a receiver with an empty buffer computes. */
  lemma TokensOfSent(sent: seq<Sent>, offset: nat)
    requires forall s | s in sent :: Sendable(s)
    ensures var s := Tokens(LineBytes(sent), offset);
      s.rest == [] && Reported(s.items) == LineEvents(sent)
  {
    hide Decide, LineEvents, LineBytes, Tokens, NoteAll, Reported;
    var log := FRESH.log;
    AdvanceSent(State(LineBytes(sent), offset, log), sent);
    EventsOfNotes(log, Tokens(LineBytes(sent), offset).items);
    assert [] + LineEvents(sent) == LineEvents(sent);
    assert [] + Reported(Tokens(LineBytes(sent), offset).items) == Reported(Tokens(LineBytes(sent), offset).items);
  }

  // ---------------------------------------------------------------- damage

  /** An altered address, payload or checksum byte: the telegram's own offset yields no frame. */
  lemma DamagedTelegramRejected(payload: Bytes, address: Byte, damaged: Bytes, i: nat, after: Bytes)
    requires 1 <= |payload| <= MAX_PAYLOAD
    requires Crc.AgreeOutside(Wire(payload, address), damaged, i, 1)
    requires damaged[i] != Wire(payload, address)[i]
    requires i == 1 || i >= 4
    ensures Decide(damaged + after) == Take(BadCrc(damaged), 1)
  {
    hide Wire, CrcValid;
    var raw := Wire(payload, address);
    WireAccepted(payload, address);
    DamageChangesChecksum(raw, damaged, i);
    assert (damaged + after)[..|raw|] == damaged;
  }

  lemma DamageChangesChecksum(raw: Bytes, damaged: Bytes, i: nat)
    requires |raw| >= 7 && CrcValid(raw)
    requires Crc.AgreeOutside(raw, damaged, i, 1) && damaged[i] != raw[i]
    ensures !CrcValid(damaged)
  {
    var n := |raw| - 2;
    hide Crc.Crc16, Crc.Join;
    if i < n {
      Crc.SingleByteDetected(raw[..n], damaged[..n], i);
      assert Received(raw) == Received(damaged);
    } else {
      assert raw[..n] == damaged[..n];
      if Received(damaged) == Received(raw) {
        WordBytesUnique(raw[n], raw[n + 1], damaged[n], damaged[n + 1]);
      }
    }
  }

  /** Damage within bytes i and i+1 that the checksum cannot see; `n` bytes of the telegram are covered. */
  predicate PairEscapes(raw: Bytes, damaged: Bytes, i: nat)
    requires i + 2 <= |raw| == |damaged|
  {
    var n := |raw| - 2;
    var d, e := Crc.ByteXor(raw[i], damaged[i]), Crc.ByteXor(raw[i + 1], damaged[i + 1]);
    (i + 2 < n && Crc.Doubles(d, e)) || (i + 1 == n && d == e)
  }

  /**
   An encoded telegram damaged within two neighbouring bytes behind its length field, the checksum
   bytes included, is accepted in exactly two cases: both bytes are followed by another covered
   one and the second difference is the doubled first, or the last covered byte and the low
   checksum byte changed alike.  In all other cases it is a checksum error at its own offset.
   */
  lemma PairDamage(payload: Bytes, address: Byte, damaged: Bytes, i: nat, after: Bytes)
    requires 1 <= |payload| <= MAX_PAYLOAD && i >= 4
    requires Crc.AgreeOutside(Wire(payload, address), damaged, i, 2) && damaged != Wire(payload, address)
    ensures Decide(damaged + after) ==
      if PairEscapes(Wire(payload, address), damaged, i) then Take(Good(damaged), |damaged|)
      else Take(BadCrc(damaged), 1)
  {
    hide Wire, CrcValid, PairEscapes;
    var raw := Wire(payload, address);
    WireAccepted(payload, address);
    PairChecksum(raw, damaged, i);
    assert (damaged + after)[..|raw|] == damaged;
  }

  lemma PairChecksum(raw: Bytes, damaged: Bytes, i: nat)
    requires |raw| >= 7 && CrcValid(raw)
    requires Crc.AgreeOutside(raw, damaged, i, 2) && damaged != raw
    ensures CrcValid(damaged) <==> PairEscapes(raw, damaged, i)
  {
    var n := |raw| - 2;
    hide Crc.Crc16, Crc.Join, Crc.ByteXor, Crc.Doubles;
    if i + 2 <= n {
      assert raw[..n] != damaged[..n] by {
        assert raw == raw[..n] + raw[n..] && damaged == damaged[..n] + damaged[n..] && raw[n..] == damaged[n..];
      }
      Crc.PairCollision(raw[..n], damaged[..n], i);
    } else if i + 1 == n {
      var d, e := Crc.ByteXor(raw[i], damaged[i]), Crc.ByteXor(raw[n], damaged[n]);
      Crc.LastByteCrc(raw[..n], damaged[..n]);
      Crc.JoinXor(raw[n], damaged[n], raw[n + 1]);
      Crc.XorMatches(Expected(raw), Received(raw), Expected(damaged), Received(damaged));
      if Crc.Join(d, 0) == Crc.Join(e, 0) {
        WordBytesUnique(d, 0, e, 0);
      }
    } else {
      assert raw[..n] == damaged[..n];
      if Received(damaged) == Received(raw) {
        WordBytesUnique(raw[n], raw[n + 1], damaged[n], damaged[n + 1]);
      }
    }
  }

  lemma WireCarries(payload: Bytes, address: Byte, k: nat)
    requires k < |payload| <= MAX_PAYLOAD
    ensures Wire(payload, address)[4 + k] == payload[k]
  {
  }

  /** A real case: in the request for installation mode, 20 00 can turn into 21 02 unnoticed. */
  lemma PairCanEscape(password: Bytes, after: Bytes)
    requires |password| == 8
    ensures var raw := Wire([0x20, 0x00] + password, 0);
      var damaged := raw[4 := 0x21][5 := 0x02];
      Decide(damaged + after) == Take(Good(damaged), 16)
  {
    hide Wire, Crc.ByteXor, Crc.Doubles, Decide;
    var payload := [0x20, 0x00] + password;
    var raw := Wire(payload, 0);
    WireCarries(payload, 0, 0);
    WireCarries(payload, 0, 1);
    Crc.DoublingExample();
    PairDamage(payload, 0, raw[4 := 0x21][5 := 0x02], 4, after);
  }
}

/** `Accumulator` and the latch of `StatusNode::run` in tools/ros2_status/src/status_node.cpp. */
module StatusNode {
  import opened Bytes
  import opened IncrementalScan
  import Framing
  import Crc

  /** The vendor message library: its payload limit and the checksum it builds, both left open. */
  datatype Library = Library(maxPayload: nat, crc: (Byte, Bytes) -> Crc.Word)

  datatype Kind = AckByte | NakByte | NoiseByte | UnrecognizedStx | InvalidLength | Telegram

  datatype Token = Token(kind: Kind, bytes: Bytes, declared: nat, crcOk: bool, statusLayout: bool)

  function Single(kind: Kind, b: Byte): Decision<Token> {
    Take(Token(kind, [b], 0, false, false), 1)
  }

  /** The candidate that fills the front of the buffer. */
  function Candidate(lib: Library, raw: Bytes): Token
    requires |raw| >= 7
  {
    var payload := raw[4..|raw| - 2];
    Token(Telegram, raw, |payload|, Framing.Received(raw) == lib.crc(raw[1], payload),
          payload[0] == 0xB1 && (|payload| == 148 || |payload| == 154))
  }

  /** What the loop of `feed` does with the front of `pending_`. */
  function Decide(lib: Library, pending: Bytes): Decision<Token> {
    if pending == [] then Wait
    else if pending[0] != 0x02 then
      Single(if pending[0] == 0x06 then AckByte else if pending[0] == 0x15 then NakByte else NoiseByte, pending[0])
    else if |pending| < 2 then Wait
    else if pending[1] != 0x80 && pending[1] != 0x81 then Single(UnrecognizedStx, pending[0])
    else if |pending| < 4 then Wait
    else
      var length := Number(pending[2], pending[3]);
      if length == 0 || length > lib.maxPayload then Take(Token(InvalidLength, pending[..4], length, false, false), 4)
      else if |pending| < length + 6 then Wait
      else Take(Candidate(lib, pending[..length + 6]), length + 6)
  }

  function Deciding(lib: Library): Parser<Token> {
    b => Decide(lib, b)
  }

  lemma ParserStable(lib: Library)
    ensures Stable(Deciding(lib))
  {
    forall b: Bytes, c: Bytes | Decide(lib, b).Take?
      ensures Decide(lib, b + c) == Decide(lib, b)
    {
      DecideMore(lib, b, c);
    }
  }

  lemma DecideMore(lib: Library, b: Bytes, c: Bytes)
    requires Decide(lib, b).Take?
    ensures Decide(lib, b + c) == Decide(lib, b)
  {
    hide Candidate;
    if |b| >= 4 {
      assert (b + c)[..4] == b[..4];
      var n := Number(b[2], b[3]) + 6;
      if n <= |b| {
        assert (b + c)[..n] == b[..n];
      }
    }
  }

  function Tokens(lib: Library, pending: Bytes, offset: nat): (s: Scanned<Token>)
    ensures Decide(lib, s.rest) == Wait && |s.rest| <= |pending|
  {
    ParserStable(lib);
    Scan(Deciding(lib), pending, offset)
  }

  // ---------------------------------------------------------------- observations

  datatype Observation = Observation(offset: nat, token: Token, postTx: bool)

  predicate PostTx(boundary: Option<nat>, offset: nat) {
    boundary.Some? && offset >= boundary.value
  }

  function Observe(boundary: Option<nat>, item: Item<Token>): Observation {
    Observation(item.offset, item.token, PostTx(boundary, item.offset))
  }

  function ObserveItems(boundary: Option<nat>, items: seq<Item<Token>>): (seen: seq<Observation>)
    ensures |seen| == |items|
    ensures forall i | 0 <= i < |items| :: seen[i] == Observe(boundary, items[i])
  {
    seq(|items|, i requires 0 <= i < |items| => Observe(boundary, items[i]))
  }

  /** The accumulator's fields and everything its callback has been given. */
  datatype State = State(pending: Bytes, received: nat, consumed: nat, boundary: Option<nat>, seen: seq<Observation>)

  const EMPTY := State([], 0, 0, None, [])

  function Feed(lib: Library, st: State, bytes: Bytes): State {
    var s := Tokens(lib, st.pending + bytes, st.consumed);
    State(s.rest, st.received + |bytes|, st.consumed + |st.pending| + |bytes| - |s.rest|, st.boundary,
          st.seen + ObserveItems(st.boundary, s.items))
  }

  function Mark(st: State): State {
    st.(boundary := Some(st.received))
  }

  class Accumulator {
    const lib: Library
    var pending: Bytes
    var received: nat
    var consumed: nat
    var boundary: Option<nat>
    ghost var seen: seq<Observation>

    ghost function Value(): State
      reads this
    {
      State(pending, received, consumed, boundary, seen)
    }

    constructor (lib: Library)
      ensures this.lib == lib && Value() == EMPTY
    {
      this.lib := lib;
      pending, received, consumed, boundary, seen := [], 0, 0, None, [];
    }

    method MarkTxBoundary()
      modifies this`boundary
      ensures Value() == Mark(old(Value()))
    {
      boundary := Some(received);
    }

    /** One turn of the loop; the observation it reports, or None where it returns. */
    method Next() returns (item: Option<Observation>)
      requires pending != []
      modifies this`pending, this`consumed, this`seen
      ensures var d := Decide(lib, old(pending));
        && item.Some? == d.Take?
        && (d.Wait? ==> Value() == old(Value()))
        && (d.Take? ==>
              && 1 <= d.size <= |old(pending)|
              && item.value == Observation(old(consumed), d.token, PostTx(boundary, old(consumed)))
              && Value() == old(Value()).(pending := old(pending)[d.size..], consumed := old(consumed) + d.size,
                                          seen := old(seen) + [item.value]))
    {
      hide Framing.Received;
      var post := boundary.Some? && consumed >= boundary.value;
      var first := pending[0];
      if first != 0x02 {
        var kind := if first == 0x06 then AckByte else if first == 0x15 then NakByte else NoiseByte;
        item := Report(Token(kind, [first], 0, false, false), post, 1);
        return;
      }
      if |pending| < 2 {
        return None;
      }
      if pending[1] != 0x80 && pending[1] != 0x81 {
        item := Report(Token(UnrecognizedStx, [first], 0, false, false), post, 1);
        return;
      }
      if |pending| < 4 {
        return None;
      }
      var length := Number(pending[2], pending[3]);
      if length == 0 || length > lib.maxPayload {
        item := Report(Token(InvalidLength, pending[..4], length, false, false), post, 4);
        return;
      }
      var total := length + 6;
      if |pending| < total {
        return None;
      }
      var raw := pending[..total];
      var payload := pending[4..4 + length];
      assert raw[4..|raw| - 2] == payload;
      var token := Token(Telegram, raw, length, Framing.Received(raw) == lib.crc(pending[1], payload),
                         payload[0] == 0xB1 && (length == 148 || length == 154));
      item := Report(token, post, total);
    }

    /** `observe_(item)` and `consume(count)`. */
    method Report(token: Token, post: bool, count: nat) returns (item: Option<Observation>)
      requires count <= |pending|
      modifies this`pending, this`consumed, this`seen
      ensures item == Some(Observation(old(consumed), token, post))
      ensures Value() == old(Value()).(pending := old(pending)[count..], consumed := old(consumed) + count,
                                       seen := old(seen) + [item.value])
    {
      item := Some(Observation(consumed, token, post));
      seen := seen + [item.value];
      pending := pending[count..];
      consumed := consumed + count;
    }

    method FeedBytes(bytes: Bytes)
      modifies this
      ensures Value() == Feed(lib, old(Value()), bytes)
    {
      hide Decide, Tokens;
      pending := pending + bytes;
      received := received + |bytes|;
      ghost var all := Tokens(lib, pending, consumed);
      ghost var done: seq<Item<Token>> := [];
      ghost var start := seen;
      ghost var total := consumed + |pending|;
      while pending != []
        invariant boundary == old(boundary) && received == old(received) + |bytes|
        invariant consumed + |pending| == total
        invariant all == Scanned(done + Tokens(lib, pending, consumed).items, Tokens(lib, pending, consumed).rest)
        invariant seen == start + ObserveItems(boundary, done)
        decreases |pending|
      {
        ghost var d, at, before := Decide(lib, pending), consumed, pending;
        var item := Next();
        if item.None? {
          TokensWait(lib, before, at);
          assert done + [] == done;
          return;
        }
        TokensTake(lib, before, at);
        ghost var more := Tokens(lib, pending, consumed).items;
        assert (done + [Item(at, d.token, d.size)]) + more == done + ([Item(at, d.token, d.size)] + more);
        ObserveSnoc(boundary, done, Item(at, d.token, d.size));
        done := done + [Item(at, d.token, d.size)];
        assert seen == start + ObserveItems(boundary, done);
      }
      TokensWait(lib, [], consumed);
      assert done + [] == done;
    }
  }

  lemma ObserveSnoc(boundary: Option<nat>, items: seq<Item<Token>>, item: Item<Token>)
    ensures ObserveItems(boundary, items + [item]) == ObserveItems(boundary, items) + [Observe(boundary, item)]
  {
  }

  lemma TokensTake(lib: Library, pending: Bytes, offset: nat)
    requires Decide(lib, pending).Take?
    ensures var d := Decide(lib, pending);
      && 1 <= d.size <= |pending|
      && Tokens(lib, pending, offset)
         == Prepend(Item(offset, d.token, d.size), Tokens(lib, pending[d.size..], offset + d.size))
  {
    hide Decide, Stable;
    ParserStable(lib);
    ScanTake(Deciding(lib), pending, offset, Decide(lib, pending).token, Decide(lib, pending).size);
  }

  lemma TokensWait(lib: Library, pending: Bytes, offset: nat)
    requires pending == [] || Decide(lib, pending) == Wait
    ensures Tokens(lib, pending, offset) == Scanned([], pending)
  {
    ParserStable(lib);
    ScanWait(Deciding(lib), pending, offset);
  }
}

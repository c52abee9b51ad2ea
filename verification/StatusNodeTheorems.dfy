/** What the ROS 2 status node may conclude from the bytes it was given. */
module StatusNodeTheorems {
  import opened Bytes
  import opened IncrementalScan
  import Framing
  import opened StatusNode

  // ---------------------------------------------------------------- fragmentation and the boundary

  ghost function FeedAll(lib: Library, st: State, chunks: seq<Bytes>): State
    decreases |chunks|
  {
    if chunks == [] then st else FeedAll(lib, Feed(lib, st, chunks[0]), chunks[1..])
  }

  lemma TokensResume(lib: Library, a: Bytes, b: Bytes, offset: nat)
    ensures var s := Tokens(lib, a, offset);
            var t := Tokens(lib, s.rest + b, offset + |a| - |s.rest|);
            Tokens(lib, a + b, offset) == Scanned(s.items + t.items, t.rest)
  {
    hide Decide, Stable, Scan;
    ParserStable(lib);
    ScanResume(Deciding(lib), a, b, offset);
  }

  lemma ObserveConcat(boundary: Option<nat>, a: seq<Item<Token>>, b: seq<Item<Token>>)
    ensures ObserveItems(boundary, a + b) == ObserveItems(boundary, a) + ObserveItems(boundary, b)
  {
  }

  lemma FeedResume(lib: Library, st: State, a: Bytes, b: Bytes)
    ensures Feed(lib, Feed(lib, st, a), b) == Feed(lib, st, a + b)
  {
    hide Decide, Tokens, ObserveItems;
    TokensResume(lib, st.pending + a, b, st.consumed);
    assert (st.pending + a) + b == st.pending + (a + b);
    var s := Tokens(lib, st.pending + a, st.consumed);
    var t := Tokens(lib, s.rest + b, st.consumed + |st.pending + a| - |s.rest|);
    ObserveConcat(st.boundary, s.items, t.items);
    assert (st.seen + ObserveItems(st.boundary, s.items)) + ObserveItems(st.boundary, t.items)
        == st.seen + (ObserveItems(st.boundary, s.items) + ObserveItems(st.boundary, t.items));
  }

  lemma {:induction false} FeedFragmented(lib: Library, st: State, chunks: seq<Bytes>)
    requires Decide(lib, st.pending) == Wait
    ensures FeedAll(lib, st, chunks) == Feed(lib, st, Flatten(chunks))
    decreases |chunks|
  {
    if chunks == [] {
      hide Decide;
      assert st.pending + [] == st.pending;
      TokensWait(lib, st.pending, st.consumed);
      assert st.seen + ObserveItems(st.boundary, []) == st.seen;
    } else {
      FeedWaits(lib, st, chunks[0]);
      hide Decide, Feed;
      FeedFragmented(lib, Feed(lib, st, chunks[0]), chunks[1..]);
      FeedResume(lib, st, chunks[0], Flatten(chunks[1..]));
    }
  }

  lemma FeedWaits(lib: Library, st: State, data: Bytes)
    ensures Decide(lib, Feed(lib, st, data).pending) == Wait
  {
  }

  lemma ItemsBelow(lib: Library, stream: Bytes, i: nat)
    requires i < |Tokens(lib, stream, 0).items|
    ensures var item := Tokens(lib, stream, 0).items[i];
      item.offset < |stream| && Decide(lib, stream[item.offset..]) == Take(item.token, item.size)
    ensures var items := Tokens(lib, stream, 0).items;
      forall j | i < j < |items| :: items[i].offset < items[j].offset
  {
    hide Decide, Stable, Scan;
    ParserStable(lib);
    ItemsDecided(Deciding(lib), stream, 0, i);
    var item := Tokens(lib, stream, 0).items[i];
    Decided(Deciding(lib), stream[item.offset..], []);
  }

  lemma EarlyIsNotPost(lib: Library, stream: Bytes)
    ensures ObserveItems(None, Tokens(lib, stream, 0).items) == ObserveItems(Some(|stream|), Tokens(lib, stream, 0).items)
  {
    hide Decide, Tokens;
    var items := Tokens(lib, stream, 0).items;
    forall i | 0 <= i < |items|
      ensures Observe(None, items[i]) == Observe(Some(|stream|), items[i])
    {
      ItemsBelow(lib, stream, i);
    }
  }

  /**
   However the bytes before and after the transmit boundary were cut into reads, the observations
   are those of the whole stream, and `post_tx` holds exactly from the boundary offset on.
   */
  lemma MarkedObservations(lib: Library, before: seq<Bytes>, after: seq<Bytes>)
    ensures var st := FeedAll(lib, Mark(FeedAll(lib, EMPTY, before)), after);
      var stream := Flatten(before) + Flatten(after);
      && st.pending == Tokens(lib, stream, 0).rest
      && st.received == |stream|
      && st.seen == ObserveItems(Some(|Flatten(before)|), Tokens(lib, stream, 0).items)
  {
    var a, b := Flatten(before), Flatten(after);
    hide Tokens, FeedAll, ObserveItems;
    FeedFragmented(lib, EMPTY, before);
    var early := Feed(lib, EMPTY, a);
    FeedWaits(lib, EMPTY, a);
    hide Decide;
    FeedFragmented(lib, Mark(early), after);
    assert EMPTY.pending + a == a;
    var s := Tokens(lib, a, 0);
    var t := Tokens(lib, s.rest + b, |a| - |s.rest|);
    TokensResume(lib, a, b, 0);
    EarlyIsNotPost(lib, a);
    assert [] + ObserveItems(None, s.items) == ObserveItems(None, s.items);
    ObserveConcat(Some(|a|), s.items, t.items);
  }

  // ---------------------------------------------------------------- the latch

  datatype Latch = Latch(ack: bool, nak: bool, validStatus: bool, validStatusAfterAck: bool, frames: nat, badCrcs: nat)

  const RELEASED := Latch(false, false, false, false, 0, 0)

  predicate PostStatus(o: Observation) {
    o.postTx && o.token.kind == Telegram && o.token.crcOk && o.token.statusLayout
  }

  function Notice(h: Latch, o: Observation): Latch {
    var counted :=
      if o.token.kind != Telegram then h
      else if o.token.crcOk then h.(frames := h.frames + 1) else h.(badCrcs := h.badCrcs + 1);
    var judged :=
      if PostStatus(o) then counted.(validStatus := true, validStatusAfterAck := h.validStatusAfterAck || h.ack) else counted;
    judged.(ack := h.ack || (o.postTx && o.token.kind == AckByte), nak := h.nak || (o.postTx && o.token.kind == NakByte))
  }

  function NoticeAll(h: Latch, seen: seq<Observation>): Latch {
    if seen == [] then h else Notice(NoticeAll(h, seen[..|seen| - 1]), seen[|seen| - 1])
  }

  /** The callback of `StatusNode::run` with the flags it captures. */
  class Node {
    var ack: bool
    var nak: bool
    var validStatus: bool
    var validStatusAfterAck: bool
    var frames: nat
    var badCrcs: nat

    ghost function Value(): Latch
      reads this
    {
      Latch(ack, nak, validStatus, validStatusAfterAck, frames, badCrcs)
    }

    constructor ()
      ensures Value() == RELEASED
    {
      ack, nak, validStatus, validStatusAfterAck, frames, badCrcs := false, false, false, false, 0, 0;
    }

    method Callback(o: Observation)
      modifies this
      ensures Value() == Notice(old(Value()), o)
    {
      if o.token.kind == Telegram {
        if o.token.crcOk {
          frames := frames + 1;
        } else {
          badCrcs := badCrcs + 1;
        }
        if o.postTx && o.token.crcOk && o.token.statusLayout {
          validStatus := true;
          if ack {
            validStatusAfterAck := true;
          }
        }
      }
      if o.postTx && o.token.kind == AckByte {
        ack := true;
      }
      if o.postTx && o.token.kind == NakByte {
        nak := true;
      }
    }
  }

  predicate HasAck(seen: seq<Observation>) {
    exists i | 0 <= i < |seen| :: seen[i].postTx && seen[i].token.kind == AckByte
  }

  predicate HasNak(seen: seq<Observation>) {
    exists i | 0 <= i < |seen| :: seen[i].postTx && seen[i].token.kind == NakByte
  }

  predicate StatusAfterAck(seen: seq<Observation>) {
    exists i, j | 0 <= i < j < |seen| :: seen[i].postTx && seen[i].token.kind == AckByte && PostStatus(seen[j])
  }

  lemma {:induction false} LatchMeaning(seen: seq<Observation>)
    ensures var h := NoticeAll(RELEASED, seen);
      && (h.ack <==> HasAck(seen))
      && (h.nak <==> HasNak(seen))
      && (h.validStatusAfterAck <==> StatusAfterAck(seen))
    decreases |seen|
  {
    if seen != [] {
      var n := |seen| - 1;
      LatchMeaning(seen[..n]);
      HasSnoc(seen);
      StatusSnoc(seen);
      hide HasAck, HasNak, StatusAfterAck;
    }
  }

  lemma HasSnoc(seen: seq<Observation>)
    requires seen != []
    ensures var n := |seen| - 1;
      && (HasAck(seen) <==> HasAck(seen[..n]) || (seen[n].postTx && seen[n].token.kind == AckByte))
      && (HasNak(seen) <==> HasNak(seen[..n]) || (seen[n].postTx && seen[n].token.kind == NakByte))
  {
    var n := |seen| - 1;
    assert forall i | 0 <= i < n :: seen[..n][i] == seen[i];
  }

  lemma StatusSnoc(seen: seq<Observation>)
    requires seen != []
    ensures var n := |seen| - 1;
      StatusAfterAck(seen) <==> StatusAfterAck(seen[..n]) || (HasAck(seen[..n]) && PostStatus(seen[n]))
  {
    hide PostStatus;
    var n := |seen| - 1;
    var early := seen[..n];
    if StatusAfterAck(early) {
      var i, j :| 0 <= i < j < n && early[i].postTx && early[i].token.kind == AckByte && PostStatus(early[j]);
      assert seen[i].postTx && seen[i].token.kind == AckByte && PostStatus(seen[j]);
    }
    if HasAck(early) && PostStatus(seen[n]) {
      var i :| 0 <= i < n && early[i].postTx && early[i].token.kind == AckByte;
      assert seen[i].postTx && seen[i].token.kind == AckByte;
    }
    if StatusAfterAck(seen) {
      var i, j :| 0 <= i < j < |seen| && seen[i].postTx && seen[i].token.kind == AckByte && PostStatus(seen[j]);
      assert early[i].postTx && early[i].token.kind == AckByte;
      if j < n {
        assert PostStatus(early[j]);
      }
    }
  }

  /** The verdict of the node for a run that was sent, not cancelled, in time and closed. */
  predicate NodeSucceeds(h: Latch) {
    h.ack && !h.nak && h.validStatusAfterAck
  }

  /** A supported B1 telegram with a checksum the library agrees with lies at offset q. */
  predicate StatusAt(lib: Library, stream: Bytes, q: nat) {
    && q + 154 <= |stream|
    && stream[q] == 0x02 && (stream[q + 1] == 0x80 || stream[q + 1] == 0x81)
    && var n := Number(stream[q + 2], stream[q + 3]);
       && (n == 148 || n == 154) && q + n + 6 <= |stream|
       && stream[q + 4] == 0xB1
       && Framing.Received(stream[q..q + n + 6]) == lib.crc(stream[q + 1], stream[q + 4..q + n + 4])
  }

  lemma StatusTokenMeans(lib: Library, stream: Bytes, q: nat)
    requires q < |stream| && Decide(lib, stream[q..]).Take?
    requires var t := Decide(lib, stream[q..]).token; t.kind == Telegram && t.crcOk && t.statusLayout
    ensures StatusAt(lib, stream, q)
  {
    hide Framing.Received;
    var rest := stream[q..];
    var n := Number(rest[2], rest[3]);
    var raw := rest[..n + 6];
    assert raw == stream[q..q + n + 6];
    assert raw[4..|raw| - 2] == stream[q + 4..q + n + 4];
  }

  /**
   For every capture and every cutting: the node succeeds exactly when a post-boundary ACK
   observation precedes a post-boundary valid status and no post-boundary NAK was observed, and then
   the raw stream holds 06 at some p at or behind the boundary and a CRC-valid B1 of supported length
   at some q > p.
   */
  lemma NodeSuccess(lib: Library, before: seq<Bytes>, after: seq<Bytes>) returns (p: nat, q: nat)
    ensures var seen := FeedAll(lib, Mark(FeedAll(lib, EMPTY, before)), after).seen;
      var stream := Flatten(before) + Flatten(after);
      && (NodeSucceeds(NoticeAll(RELEASED, seen)) <==> StatusAfterAck(seen) && !HasNak(seen))
      && (NodeSucceeds(NoticeAll(RELEASED, seen)) ==>
            && |Flatten(before)| <= p < q && q < |stream|
            && stream[p] == 0x06 && StatusAt(lib, stream, q))
  {
    p, q := 0, 0;
    var stream := Flatten(before) + Flatten(after);
    var seen := FeedAll(lib, Mark(FeedAll(lib, EMPTY, before)), after).seen;
    MarkedObservations(lib, before, after);
    hide Tokens, FeedAll, NoticeAll, StatusAt;
    LatchMeaning(seen);
    AckFromStatus(seen);
    if StatusAfterAck(seen) {
      var i, j :| 0 <= i < j < |seen| && seen[i].postTx && seen[i].token.kind == AckByte && PostStatus(seen[j]);
      ItemsBelow(lib, stream, i);
      ItemsBelow(lib, stream, j);
      p, q := seen[i].offset, seen[j].offset;
      AckTokenMeans(lib, stream, p);
      StatusTokenMeans(lib, stream, q);
    }
  }

  lemma AckFromStatus(seen: seq<Observation>)
    ensures StatusAfterAck(seen) ==> HasAck(seen)
  {
  }

  lemma AckTokenMeans(lib: Library, stream: Bytes, p: nat)
    requires p < |stream| && Decide(lib, stream[p..]).Take? && Decide(lib, stream[p..]).token.kind == AckByte
    ensures stream[p] == 0x06
  {
  }
}

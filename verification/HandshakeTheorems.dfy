/** When a handshake over the decoder's live events succeeds, and what that says about the raw bytes. */
module HandshakeTheorems {
  import opened Bytes
  import opened IncrementalScan
  import opened Framing
  import opened FramingTheorems
  import opened NativeDecoder
  import opened NativeTheorems
  import opened NativeAttribution
  import opened Handshake

  // ---------------------------------------------------------------- the outcome of the fold

  predicate Eligible(boundary: nat, event: NativeEvent) {
    event.offset >= boundary && event.reason == Clear
  }

  predicate GoodAck(boundary: nat, event: NativeEvent) {
    Eligible(boundary, event) && event.AckSeen?
  }

  predicate AnyNak(boundary: nat, event: NativeEvent) {
    Eligible(boundary, event) && event.NakSeen?
  }

  predicate FramedRejection(boundary: nat, event: NativeEvent) {
    Eligible(boundary, event) && event.FrameSeen? && CommandOf(event.frame) == 0x92
    && (event.frame.address == 0x80 || event.frame.address == 0x81)
  }

  predicate Reply(command: Command, boundary: nat, event: NativeEvent, ok: bool) {
    Eligible(boundary, event) && event.FrameSeen? && CommandOf(event.frame) == ExpectedReply(command)
    && ReplyOk(command, event.frame) == ok
  }

  predicate ReplyAfterAck(command: Command, boundary: nat, events: seq<NativeEvent>, ok: bool) {
    exists i, j | 0 <= i < j < |events| :: GoodAck(boundary, events[i]) && Reply(command, boundary, events[j], ok)
  }

  predicate Has(events: seq<NativeEvent>, p: NativeEvent -> bool) {
    exists i | 0 <= i < |events| :: p(events[i])
  }

  lemma HasSnoc(events: seq<NativeEvent>, p: NativeEvent -> bool)
    requires events != []
    ensures Has(events, p) <==> Has(events[..|events| - 1], p) || p(events[|events| - 1])
  {
    var n := |events| - 1;
    if Has(events[..n], p) {
      var i :| 0 <= i < n && p(events[..n][i]);
      assert p(events[i]);
    }
    if Has(events, p) {
      var i :| 0 <= i < |events| && p(events[i]);
      assert i < n ==> p(events[..n][i]);
    }
  }

  lemma ReplyAfterAckSnoc(command: Command, boundary: nat, events: seq<NativeEvent>, ok: bool)
    requires events != []
    ensures var n := |events| - 1;
      ReplyAfterAck(command, boundary, events, ok)
      <==> ReplyAfterAck(command, boundary, events[..n], ok)
           || (Has(events[..n], e => GoodAck(boundary, e)) && Reply(command, boundary, events[n], ok))
  {
    hide GoodAck, Reply;
    var n := |events| - 1;
    if ReplyAfterAck(command, boundary, events[..n], ok) {
      var i, j :| 0 <= i < j < n && GoodAck(boundary, events[..n][i]) && Reply(command, boundary, events[..n][j], ok);
      assert GoodAck(boundary, events[i]) && Reply(command, boundary, events[j], ok);
    }
    if Has(events[..n], e => GoodAck(boundary, e)) && Reply(command, boundary, events[n], ok) {
      var i :| 0 <= i < n && GoodAck(boundary, events[..n][i]);
      assert GoodAck(boundary, events[i]);
    }
    if ReplyAfterAck(command, boundary, events, ok) {
      var i, j :| 0 <= i < j < |events| && GoodAck(boundary, events[i]) && Reply(command, boundary, events[j], ok);
      assert GoodAck(boundary, events[..n][i]);
      if j < n {
        assert Reply(command, boundary, events[..n][j], ok);
      }
    }
  }

  /** What one event can set. */
  lemma ObserveStep(h: Latch, event: NativeEvent)
    ensures var g := Observe(h, event);
      && g.command == h.command && g.firstOffset == h.firstOffset
      && (g.ack <==> h.ack || GoodAck(h.firstOffset, event))
      && (g.nak <==> h.nak || AnyNak(h.firstOffset, event))
      && (g.reply <==> h.reply || (h.ack && Reply(h.command, h.firstOffset, event, true)))
      && (g.rejected <==> h.rejected || FramedRejection(h.firstOffset, event)
                          || (h.ack && Reply(h.command, h.firstOffset, event, false)))
  {
    hide ReplyOk, DecodeStatus;
  }

  /** Each latch bit says exactly that the events contain what it stands for. */
  ghost predicate Means(h: Latch, command: Command, boundary: nat, events: seq<NativeEvent>) {
    && h.command == command && h.firstOffset == boundary
    && (h.ack <==> Has(events, e => GoodAck(boundary, e)))
    && (h.nak <==> Has(events, e => AnyNak(boundary, e)))
    && (h.reply <==> ReplyAfterAck(command, boundary, events, true))
    && (h.rejected <==> Has(events, e => FramedRejection(boundary, e))
                        || ReplyAfterAck(command, boundary, events, false))
  }

  lemma {:induction false} LatchMeaning(command: Command, boundary: nat, events: seq<NativeEvent>)
    ensures Means(ObserveAll(Fresh(command, boundary), events), command, boundary, events)
    decreases |events|
  {
    hide Observe;
    if events != [] {
      var n := |events| - 1;
      LatchMeaning(command, boundary, events[..n]);
      var h := ObserveAll(Fresh(command, boundary), events[..n]);
      ObserveStep(h, events[n]);
      HasSnoc(events, e => GoodAck(boundary, e));
      HasSnoc(events, e => AnyNak(boundary, e));
      HasSnoc(events, e => FramedRejection(boundary, e));
      ReplyAfterAckSnoc(command, boundary, events, true);
      ReplyAfterAckSnoc(command, boundary, events, false);
      hide Has, ReplyAfterAck, GoodAck, AnyNak, FramedRejection, Reply;
    }
  }

  /**
   Success, exactly: an unambiguous ACK at or after the boundary precedes an acceptable reply, no
   NAK and no 92 frame is eligible, and no eligible reply behind an ACK fails its check.
   */
  lemma HandshakeOutcome(command: Command, boundary: nat, events: seq<NativeEvent>)
    ensures Successful(ObserveAll(Fresh(command, boundary), events))
       <==> && ReplyAfterAck(command, boundary, events, true)
            && !ReplyAfterAck(command, boundary, events, false)
            && !Has(events, e => AnyNak(boundary, e))
            && !Has(events, e => FramedRejection(boundary, e))
  {
    hide ObserveAll;
    LatchMeaning(command, boundary, events);
    if ReplyAfterAck(command, boundary, events, true) {
      var i, j :| 0 <= i < j < |events| && GoodAck(boundary, events[i]) && Reply(command, boundary, events[j], true);
      assert Has(events, e => GoodAck(boundary, e));
    }
  }

  // ---------------------------------------------------------------- fragmentation

  lemma {:induction false} RejectionsUnheard(h: Latch, seen: seq<NativeEvent>)
    ensures ObserveAll(h, seen) == ObserveAll(h, Essential(seen))
    decreases |seen|
  {
    if seen != [] {
      var n := |seen| - 1;
      RejectionsUnheard(h, seen[..n]);
      if !seen[n].Rejected? {
        assert (Essential(seen[..n]) + [seen[n]])[..|Essential(seen[..n])|] == Essential(seen[..n]);
      }
    }
  }

  /** The latch after a whole capture depends on the stream, not on how it was cut. */
  lemma HandshakeFragmentation(h: Latch, a: seq<Bytes>, b: seq<Bytes>)
    requires Flatten(a) == Flatten(b)
    ensures ObserveAll(h, FeedNativeAll(BOOT, a).seen) == ObserveAll(h, FeedNativeAll(BOOT, b).seen)
  {
    hide ObserveAll, Essential, Live, Tokens, FeedNativeAll;
    BootHasSeenNothing();
    FeedNativeAllSees(BOOT, [], a);
    FeedNativeAllSees(BOOT, [], b);
    assert [] + Flatten(a) == [] + Flatten(b);
    RejectionsUnheard(h, FeedNativeAll(BOOT, a).seen);
    RejectionsUnheard(h, FeedNativeAll(BOOT, b).seen);
  }

  lemma {:induction false} UnclearUnheard(h: Latch, before: seq<NativeEvent>, after: seq<NativeEvent>)
    requires NoneClear(before, after)
    ensures ObserveAll(h, after) == ObserveAll(h, before)
    decreases |after|
  {
    if |after| == |before| {
      assert after == before;
    } else {
      var n := |after| - 1;
      assert after[..n][..|before|] == before;
      UnclearUnheard(h, before, after[..n]);
    }
  }

  /** No terminal recovery changes any handshake. */
  lemma FinishChangesNoHandshake(h: Latch, chunks: seq<Bytes>)
    ensures var n := FeedNativeAll(BOOT, chunks);
      ObserveAll(h, FinishNative(n).seen) == ObserveAll(h, n.seen)
  {
    hide ObserveAll, FeedNativeAll, FinishNative, NoneClear;
    FinishExplainsEverything(chunks);
    var n := FeedNativeAll(BOOT, chunks);
    UnclearUnheard(h, n.seen, FinishNative(n).seen);
  }

  // ---------------------------------------------------------------- what the raw bytes hold

  /** The event stands for bytes that really are at its offset. */
  ghost predicate Grounded(stream: Bytes, event: NativeEvent) {
    match event
    case AckSeen(offset, _) => offset < |stream| && stream[offset] == ACK
    case NakSeen(offset, _) => offset < |stream| && stream[offset] == NAK
    case FrameSeen(offset, frame, _) =>
      && offset + |frame.raw| <= |stream|
      && stream[offset..offset + |frame.raw|] == frame.raw
      && Accepts(frame.raw)
      && frame == NativeFrameOf(offset, frame.raw)
    case Rejected(_, _, _) => false
  }

  ghost predicate AllGrounded(stream: Bytes, events: seq<NativeEvent>, limit: nat) {
    && (forall i | 0 <= i < |events| :: Grounded(stream, events[i]) && events[i].offset < limit)
    && (forall i, j | 0 <= i < j < |events| :: events[i].offset < events[j].offset)
  }

  lemma GroundedSnoc(stream: Bytes, events: seq<NativeEvent>, event: NativeEvent, limit: nat, next: nat)
    requires AllGrounded(stream, events, limit) && Grounded(stream, event)
    requires limit <= event.offset < next
    ensures AllGrounded(stream, events + [event], next)
  {
    hide Grounded;
  }

  lemma TokenGrounded(p: Pair, stream: Bytes, offset: nat)
    requires offset <= |stream| && Decide(stream[offset..]).Take?
    requires AllGrounded(stream, p.view.events, offset)
    ensures var d := Decide(stream[offset..]);
      1 <= d.size && AllGrounded(stream, Both(p, Item(offset, d.token, d.size)).view.events, offset + d.size)
  {
    hide CrcValid, Expected, Received, AllGrounded;
    var d := Decide(stream[offset..]);
    var events := See(p.view, Item(offset, d.token, d.size)).events;
    if d.token.Control? || d.token.Good? {
      if d.token.Good? {
        assert stream[offset..][..d.size] == stream[offset..offset + d.size];
      }
      var event := events[|p.view.events|];
      assert events == p.view.events + [event];
      GroundedSnoc(stream, p.view.events, event, offset, offset + d.size);
    } else {
      LimitGrows(stream, p.view.events, offset, offset + d.size);
    }
  }

  lemma LimitGrows(stream: Bytes, events: seq<NativeEvent>, limit: nat, next: nat)
    requires AllGrounded(stream, events, limit) && limit <= next
    ensures AllGrounded(stream, events, next)
  {
    hide Grounded;
  }

  lemma {:induction false} LiveGrounded(p: Pair, stream: Bytes, offset: nat)
    requires offset <= |stream| && AllGrounded(stream, p.view.events, offset)
    ensures AllGrounded(stream, Live(p, stream[offset..], offset).view.events, |stream|)
    decreases |stream| - offset
  {
    hide Decide, AllGrounded, Both, Live;
    var rest := stream[offset..];
    if Decide(rest).Take? {
      var d := Decide(rest);
      TokenGrounded(p, stream, offset);
      LiveTake(p, rest, offset);
      assert rest[d.size..] == stream[offset + d.size..];
      LiveGrounded(Both(p, Item(offset, d.token, d.size)), stream, offset + d.size);
    } else {
      LiveNothing(p, rest, offset);
      LimitGrows(stream, p.view.events, offset, |stream|);
    }
  }

  /** The events a live capture lets a handshake hear are grounded in the raw stream. */
  lemma CaptureGrounded(h: Latch, chunks: seq<Bytes>) returns (events: seq<NativeEvent>)
    ensures ObserveAll(h, FeedNativeAll(BOOT, chunks).seen) == ObserveAll(h, events)
    ensures AllGrounded(Flatten(chunks), events, |Flatten(chunks)|)
  {
    hide ObserveAll, Essential, Live, Tokens, FeedNativeAll, Grounded;
    var stream := Flatten(chunks);
    BootHasSeenNothing();
    FeedNativeAllSees(BOOT, [], chunks);
    assert [] + stream == stream && stream[0..] == stream;
    RejectionsUnheard(h, FeedNativeAll(BOOT, chunks).seen);
    LiveGrounded(START, stream, 0);
    events := Live(START, stream, 0).view.events;
  }

  /**
   A successful handshake over any live capture has evidence in the raw bytes: an ACK byte at some
   p at or after the boundary, and behind it a complete encoded telegram whose frame passes the
   reply check.
   */
  lemma SuccessHasRawEvidence(command: Command, boundary: nat, chunks: seq<Bytes>) returns (p: nat, q: nat, n: nat)
    requires Successful(ObserveAll(Fresh(command, boundary), FeedNativeAll(BOOT, chunks).seen))
    ensures var stream := Flatten(chunks);
      && boundary <= p < q && q + n <= |stream|
      && stream[p] == ACK
      && n >= 6 && IsTelegram(stream[q..q + n])
      && ReplyOk(command, NativeFrameOf(q, stream[q..q + n]))
  {
    hide ObserveAll, FeedNativeAll, ReplyOk, Flatten, Accepts, IsTelegram, NativeFrameOf;
    var events := CaptureGrounded(Fresh(command, boundary), chunks);
    HandshakeOutcome(command, boundary, events);
    var i, j :| 0 <= i < j < |events| && GoodAck(boundary, events[i]) && Reply(command, boundary, events[j], true);
    p, q, n := events[i].offset, events[j].offset, |events[j].frame.raw|;
    TelegramsAreAccepted(events[j].frame.raw);
    AcceptedSize(events[j].frame.raw);
  }

  lemma AcceptedSize(raw: Bytes)
    requires Accepts(raw)
    ensures |raw| >= 7
  {
  }

  // ---------------------------------------------------------------- the cursor

  /** Everything seen so far lies before the next byte to arrive. */
  lemma {:induction false} SeenLiesBehind(n: Native, final: bool, recovering: bool)
    requires forall i | 0 <= i < |n.seen| :: n.seen[i].offset < n.offset
    ensures var m := Parse(n, recovering, final);
      && n.seen <= m.seen
      && (forall i | 0 <= i < |m.seen| :: m.seen[i].offset < m.offset)
    decreases |n.buffer|
  {
    hide ParseTurn;
    if Busy(n.buffer, final) {
      TurnLiesBehind(n, recovering, final);
      var q := ParseTurn(n, recovering, final);
      SeenLiesBehind(q.decoder, final, q.recovering);
    }
  }

  lemma TurnLiesBehind(n: Native, recovering: bool, final: bool)
    requires Busy(n.buffer, final)
    requires forall i | 0 <= i < |n.seen| :: n.seen[i].offset < n.offset
    ensures var q := ParseTurn(n, recovering, final).decoder;
      && n.seen <= q.seen
      && (forall i | 0 <= i < |q.seen| :: q.seen[i].offset < q.offset)
  {
    hide Expected, Received;
  }

  lemma {:induction false} CaptureLiesBehind(n: Native, chunks: seq<Bytes>)
    requires forall i | 0 <= i < |n.seen| :: n.seen[i].offset < n.offset
    ensures var m := FeedNativeAll(n, chunks);
      && n.seen <= m.seen
      && (forall i | 0 <= i < |m.seen| :: m.seen[i].offset < m.offset)
    decreases |chunks|
  {
    hide Parse;
    if chunks != [] {
      SeenLiesBehind(n.(buffer := n.buffer + chunks[0], stats := n.stats.(rawBytes := n.stats.rawBytes + |chunks[0]|)), false, false);
      CaptureLiesBehind(FeedNative(n, chunks[0]), chunks[1..]);
    }
  }

  lemma {:induction false} EarlierUnheard(h: Latch, early: seq<NativeEvent>)
    requires forall i | 0 <= i < |early| :: early[i].offset < h.firstOffset
    ensures ObserveAll(h, early) == h
    decreases |early|
  {
    if early != [] {
      EarlierUnheard(h, early[..|early| - 1]);
    }
  }

  /**
   `exchange` starts its cursor behind the observations made before it took the boundary; nothing
   it skips could have counted, because every one of them starts before the boundary.
   */
  lemma CursorSkipsNothing(command: Command, early: seq<Bytes>)
    ensures var n := FeedNativeAll(BOOT, early);
      var boundary := |Flatten(early)|;
      ObserveAll(Fresh(command, boundary), n.seen) == Fresh(command, boundary)
  {
    hide ObserveAll, FeedNativeAll, Matches, Live, Tokens;
    BootHasSeenNothing();
    FeedNativeAllSees(BOOT, [], early);
    assert [] + Flatten(early) == Flatten(early);
    CaptureLiesBehind(BOOT, early);
    EarlierUnheard(Fresh(command, |Flatten(early)|), FeedNativeAll(BOOT, early).seen);
  }
}

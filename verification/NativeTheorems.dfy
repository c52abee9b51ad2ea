/** The C++ `Decoder` and the Python `Framer` see the same telegrams and controls in every stream. */
module NativeTheorems {
  import opened Bytes
  import opened IncrementalScan
  import opened Framing
  import opened FramingTheorems
  import opened NativeDecoder

  // ---------------------------------------------------------------- the decoder's view of a token list

  /** What the decoder tells its caller apart from rejections, and its two attribution flags. */
  datatype View = View(events: seq<NativeEvent>, ambiguous: bool, recovering: bool)

  function See(v: View, item: Item<Token>): View {
    match item.token
    case Control(positive) =>
      var reason := if v.recovering || v.ambiguous then Resynchronizing else Clear;
      v.(events := v.events + [if positive then AckSeen(item.offset, reason) else NakSeen(item.offset, reason)])
    case Noise => v
    case BadLength => v.(ambiguous := true)
    case BadCrc(_) => v.(ambiguous := true)
    case Good(raw) =>
      if |raw| < 6 then v else
        var event := FrameSeen(item.offset, NativeFrameOf(item.offset, raw), if v.recovering then TerminalRescan else Clear);
        v.(events := v.events + [event], ambiguous := false)
    case Lost => v.(ambiguous := true, recovering := true)
  }

  /** The decoder's view and the framer's log of the same tokens. */
  datatype Pair = Pair(view: View, log: Log)

  function Both(p: Pair, item: Item<Token>): Pair {
    Pair(See(p.view, item), Note(p.log, item))
  }

  ghost function BothAll(p: Pair, items: seq<Item<Token>>): Pair
    decreases |items|
  {
    if items == [] then p else BothAll(Both(p, items[0]), items[1..])
  }

  lemma {:induction false} BothAllConcat(p: Pair, a: seq<Item<Token>>, b: seq<Item<Token>>)
    ensures BothAll(p, a + b) == BothAll(BothAll(p, a), b)
    decreases |a|
  {
    hide Both;
    if a == [] {
      assert a + b == b;
    } else {
      assert (a + b)[1..] == a[1..] + b;
      BothAllConcat(Both(p, a[0]), a[1..], b);
    }
  }

  lemma {:induction false} BothAllLog(p: Pair, items: seq<Item<Token>>)
    ensures BothAll(p, items).log == NoteAll(p.log, items)
    decreases |items|
  {
    hide Note, See;
    if items != [] {
      BothAllLog(Both(p, items[0]), items[1..]);
    }
  }

  ghost function Live(p: Pair, buffer: Bytes, offset: nat): Pair {
    BothAll(p, Tokens(buffer, offset).items)
  }

  ghost function Final(p: Pair, buffer: Bytes, offset: nat): Pair {
    BothAll(p, Swept(buffer, offset))
  }

  lemma LiveTake(p: Pair, buffer: Bytes, offset: nat)
    requires Decide(buffer).Take?
    ensures var d := Decide(buffer);
      && 1 <= d.size <= |buffer|
      && Live(p, buffer, offset) == Live(Both(p, Item(offset, d.token, d.size)), buffer[d.size..], offset + d.size)
      && Tokens(buffer, offset).rest == Tokens(buffer[d.size..], offset + d.size).rest
  {
    hide Decide, Both, Tokens;
    TokensTake(buffer, offset);
    var d := Decide(buffer);
    var later := Tokens(buffer[d.size..], offset + d.size).items;
    assert ([Item(offset, d.token, d.size)] + later)[1..] == later;
  }

  lemma FinalTake(p: Pair, buffer: Bytes, offset: nat)
    requires Decide(buffer).Take?
    ensures var d := Decide(buffer);
      && 1 <= d.size <= |buffer|
      && Final(p, buffer, offset) == Final(Both(p, Item(offset, d.token, d.size)), buffer[d.size..], offset + d.size)
  {
    hide Decide, Both, Sweep, Stable;
    DecideStable();
    var d := Decide(buffer);
    SweepTake(Decide, Lost, buffer, offset, d.token, d.size);
    var later := Swept(buffer[d.size..], offset + d.size);
    assert ([Item(offset, d.token, d.size)] + later)[1..] == later;
  }

  lemma FinalLost(p: Pair, buffer: Bytes, offset: nat)
    requires Decide(buffer) == Wait
    ensures buffer == [] ==> Final(p, buffer, offset) == p
    ensures buffer != [] ==> Final(p, buffer, offset) == Final(Both(p, Item(offset, Lost, 1)), buffer[1..], offset + 1)
  {
    hide Decide, Both, Sweep, Stable;
    DecideStable();
    SweepWait(Decide, Lost, buffer, offset);
    if buffer != [] {
      var later := Swept(buffer[1..], offset + 1);
      assert ([Item(offset, Lost, 1)] + later)[1..] == later;
    }
  }

  function MoreNoise(p: Pair, count: nat): Pair {
    p.(log := p.log.(stats := p.log.stats.(noiseBytes := p.log.stats.noiseBytes + count)))
  }

  /** The decoder swallows a run of noise in one event, the framer byte by byte. */
  lemma {:induction false} NoiseRun(p: Pair, buffer: Bytes, offset: nat, count: nat)
    requires count <= |buffer| && forall i | 0 <= i < count :: !Marker(buffer[i])
    ensures Live(p, buffer, offset) == Live(MoreNoise(p, count), buffer[count..], offset + count)
    ensures Tokens(buffer, offset).rest == Tokens(buffer[count..], offset + count).rest
    ensures Final(p, buffer, offset) == Final(MoreNoise(p, count), buffer[count..], offset + count)
    decreases count
  {
    hide Live, Final, Tokens;
    if count == 0 {
      assert buffer[0..] == buffer;
    } else {
      NoiseByte(buffer);
      LiveTake(p, buffer, offset);
      FinalTake(p, buffer, offset);
      hide Decide;
      assert Both(p, Item(offset, Noise, 1)) == MoreNoise(p, 1);
      NoiseRun(MoreNoise(p, 1), buffer[1..], offset + 1, count - 1);
      assert buffer[1..][count - 1..] == buffer[count..];
    }
  }

  lemma NoiseByte(buffer: Bytes)
    requires buffer != [] && !Marker(buffer[0])
    ensures Decide(buffer) == Take(Noise, 1)
  {
  }

  // ---------------------------------------------------------------- simulation

  function Essential(seen: seq<NativeEvent>): seq<NativeEvent> {
    if seen == [] then []
    else if seen[|seen| - 1].Rejected? then Essential(seen[..|seen| - 1])
    else Essential(seen[..|seen| - 1]) + [seen[|seen| - 1]]
  }

  lemma EssentialSnoc(seen: seq<NativeEvent>, event: NativeEvent)
    ensures Essential(seen + [event]) == if event.Rejected? then Essential(seen) else Essential(seen) + [event]
  {
    assert (seen + [event])[..|seen|] == seen;
  }

  /** The decoder has told its caller exactly what the view says, and the counters agree. */
  ghost predicate Matches(n: Native, recovering: bool, p: Pair) {
    && Essential(n.seen) == p.view.events
    && n.ambiguous == p.view.ambiguous
    && recovering == p.view.recovering
    && n.stats.validFrames == p.log.stats.frames
    && n.stats.crcFailures == p.log.stats.crcErrors
    && n.stats.noise == p.log.stats.noiseBytes
  }

  /** The turn of the framer, or giving up one byte, that a decoder turn corresponds to. */
  ghost predicate TurnsLike(n: Native, q: Progress, p: Pair) {
    var d := Decide(n.buffer);
    var size := if d.Take? then d.size else 1;
    && 1 <= size <= |n.buffer|
    && q.decoder.buffer == n.buffer[size..] && q.decoder.offset == n.offset + size
    && Matches(q.decoder, q.recovering, Both(p, Item(n.offset, if d.Take? then d.token else Lost, size)))
  }

  lemma RejectionMatches(n: Native, recovering: bool, p: Pair)
    requires n.buffer != [] && n.buffer[0] == STX && Matches(n, recovering, p)
    requires ShortOf(n.buffer) || !(1 <= Declared(n.buffer) <= MAX_PAYLOAD)
    ensures TurnsLike(n, StxTurn(n, recovering), p)
  {
    hide Essential;
    EssentialSnoc(n.seen, Rejected(n.offset, n.buffer, ShortHeader));
    EssentialSnoc(n.seen, Rejected(n.offset, n.buffer, IncompleteTelegram));
    if |n.buffer| >= 4 {
      EssentialSnoc(n.seen, Rejected(n.offset, n.buffer[..4], InvalidLength));
    }
  }

  lemma CandidateMatches(n: Native, recovering: bool, p: Pair)
    requires n.buffer != [] && n.buffer[0] == STX && Matches(n, recovering, p)
    requires !ShortOf(n.buffer) && 1 <= Declared(n.buffer) <= MAX_PAYLOAD
    ensures TurnsLike(n, StxTurn(n, recovering), p)
  {
    hide Expected, Received, Essential;
    var raw := n.buffer[..Declared(n.buffer) + 6];
    if CrcValid(raw) {
      EssentialSnoc(n.seen, FrameSeen(n.offset, NativeFrameOf(n.offset, raw), if recovering then TerminalRescan else Clear));
    } else {
      EssentialSnoc(n.seen, Rejected(n.offset, raw, CrcMismatch));
    }
  }

  lemma StxMatches(n: Native, recovering: bool, p: Pair)
    requires n.buffer != [] && n.buffer[0] == STX && Matches(n, recovering, p)
    ensures TurnsLike(n, StxTurn(n, recovering), p)
  {
    hide TurnsLike, Matches, StxTurn;
    if ShortOf(n.buffer) || !(1 <= Declared(n.buffer) <= MAX_PAYLOAD) {
      RejectionMatches(n, recovering, p);
    } else {
      CandidateMatches(n, recovering, p);
    }
  }

  lemma TurnMatches(n: Native, recovering: bool, final: bool, p: Pair)
    requires Busy(n.buffer, final) && Marker(n.buffer[0]) && Matches(n, recovering, p)
    ensures TurnsLike(n, ParseTurn(n, recovering, final), p)
  {
    hide Essential, StxTurn;
    if n.buffer[0] == STX {
      hide TurnsLike, Matches;
      StxMatches(n, recovering, p);
    } else {
      var q := ParseTurn(n, recovering, final);
      EssentialSnoc(n.seen, q.decoder.seen[|n.seen|]);
    }
  }

  lemma NoiseMatches(n: Native, recovering: bool, final: bool, p: Pair)
    requires Busy(n.buffer, final) && !Marker(n.buffer[0]) && Matches(n, recovering, p)
    ensures var q := ParseTurn(n, recovering, final);
      var count := NativeDecoder.Run(n.buffer);
      && q.decoder.buffer == n.buffer[count..] && q.decoder.offset == n.offset + count
      && Matches(q.decoder, q.recovering, MoreNoise(p, count))
  {
    hide Essential;
    var count := NativeDecoder.Run(n.buffer);
    EssentialSnoc(n.seen, Rejected(n.offset, n.buffer[..count], OutsideTelegram));
  }

  lemma BusyIsDecided(buffer: Bytes)
    ensures Busy(buffer, false) <==> Decide(buffer).Take?
    ensures Busy(buffer, true) <==> buffer != []
  {
  }

  /** Live parsing matches the tokens of the buffer and keeps the same rest. */
  lemma {:induction false} ParseMatches(n: Native, recovering: bool, p: Pair)
    requires Matches(n, recovering, p)
    ensures var m := Parse(n, recovering, false);
      && Matches(m, Live(p, n.buffer, n.offset).view.recovering, Live(p, n.buffer, n.offset))
      && m.buffer == Tokens(n.buffer, n.offset).rest
      && m.offset + |m.buffer| == n.offset + |n.buffer|
    decreases |n.buffer|
  {
    hide Decide, ParseTurn, Matches, Busy, Both, Tokens, Live;
    BusyIsDecided(n.buffer);
    if Busy(n.buffer, false) {
      var q := ParseTurn(n, recovering, false);
      NotEmptyWhenBusy(n.buffer, false);
      if Marker(n.buffer[0]) {
        TurnMatches(n, recovering, false, p);
        var d := Decide(n.buffer);
        LiveTake(p, n.buffer, n.offset);
        ParseMatches(q.decoder, q.recovering, Both(p, Item(n.offset, d.token, d.size)));
      } else {
        var count := NativeDecoder.Run(n.buffer);
        NoiseMatches(n, recovering, false, p);
        NoiseRun(p, n.buffer, n.offset, count);
        ParseMatches(q.decoder, q.recovering, MoreNoise(p, count));
      }
    } else {
      LiveNothing(p, n.buffer, n.offset);
      MatchesRecovering(n, recovering, p);
    }
  }

  lemma NotEmptyWhenBusy(buffer: Bytes, final: bool)
    requires Busy(buffer, final)
    ensures buffer != []
  {
  }

  lemma MatchesRecovering(n: Native, recovering: bool, p: Pair)
    requires Matches(n, recovering, p)
    ensures p.view.recovering == recovering
  {
  }

  lemma LiveNothing(p: Pair, buffer: Bytes, offset: nat)
    requires !Decide(buffer).Take?
    ensures Live(p, buffer, offset) == p && Tokens(buffer, offset).rest == buffer
  {
    TokensWait(buffer, offset);
  }

  /** `finish` matches the sweep that gives up stalled bytes, and leaves nothing behind. */
  lemma {:induction false} FinishMatches(n: Native, recovering: bool, p: Pair)
    requires Matches(n, recovering, p)
    ensures var m := Parse(n, recovering, true);
      && m.buffer == [] && m.offset == n.offset + |n.buffer|
      && Matches(m, Final(p, n.buffer, n.offset).view.recovering, Final(p, n.buffer, n.offset))
    decreases |n.buffer|
  {
    hide Decide, ParseTurn, Matches, Busy, Both, Final;
    BusyIsDecided(n.buffer);
    if Busy(n.buffer, true) {
      var q := ParseTurn(n, recovering, true);
      if Marker(n.buffer[0]) {
        TurnMatches(n, recovering, true, p);
        var d := Decide(n.buffer);
        if d.Take? {
          FinalTake(p, n.buffer, n.offset);
          FinishMatches(q.decoder, q.recovering, Both(p, Item(n.offset, d.token, d.size)));
        } else {
          FinalLost(p, n.buffer, n.offset);
          FinishMatches(q.decoder, q.recovering, Both(p, Item(n.offset, Lost, 1)));
        }
      } else {
        var count := NativeDecoder.Run(n.buffer);
        NoiseMatches(n, recovering, true, p);
        NoiseRun(p, n.buffer, n.offset, count);
        FinishMatches(q.decoder, q.recovering, MoreNoise(p, count));
      }
    } else {
      WaitForFirst();
      FinalLost(p, n.buffer, n.offset);
      MatchesRecovering(n, recovering, p);
    }
  }

  // ---------------------------------------------------------------- whole captures

  ghost function FeedNativeAll(n: Native, chunks: seq<Bytes>): Native
    decreases |chunks|
  {
    if chunks == [] then n else FeedNativeAll(FeedNative(n, chunks[0]), chunks[1..])
  }

  const START := Pair(View([], false, false), FRESH.log)

  /** What a decoder that has seen `stream` holds, however the stream was cut. */
  ghost predicate HasSeen(n: Native, stream: Bytes) {
    var p := Live(START, stream, 0);
    && n.buffer == Tokens(stream, 0).rest
    && n.offset + |n.buffer| == |stream|
    && Matches(n, false, p)
    && !p.view.recovering
  }

  lemma {:induction false} LiveNeverRecovers(p: Pair, buffer: Bytes, offset: nat)
    requires !p.view.recovering
    ensures !Live(p, buffer, offset).view.recovering
    decreases |buffer|
  {
    hide Live;
    if Decide(buffer).Take? {
      LiveTake(p, buffer, offset);
      var d := Decide(buffer);
      assert !d.token.Lost?;
      hide Decide;
      LiveNeverRecovers(Both(p, Item(offset, d.token, d.size)), buffer[d.size..], offset + d.size);
    } else {
      LiveNothing(p, buffer, offset);
    }
  }

  lemma LiveResume(stream: Bytes, data: Bytes)
    ensures var s := Tokens(stream, 0);
      && Live(START, stream + data, 0) == Live(Live(START, stream, 0), s.rest + data, |stream| - |s.rest|)
      && Tokens(stream + data, 0).rest == Tokens(s.rest + data, |stream| - |s.rest|).rest
  {
    hide Tokens, Both;
    TokensResume(stream, data, 0);
    var s := Tokens(stream, 0);
    BothAllConcat(START, s.items, Tokens(s.rest + data, |stream| - |s.rest|).items);
  }

  lemma FeedNativeSees(n: Native, stream: Bytes, data: Bytes)
    requires HasSeen(n, stream)
    ensures HasSeen(FeedNative(n, data), stream + data)
  {
    hide Tokens, Live, Decide, Parse;
    var m := n.(buffer := n.buffer + data, stats := n.stats.(rawBytes := n.stats.rawBytes + |data|));
    var p := Live(START, stream, 0);
    LiveResume(stream, data);
    LiveNeverRecovers(START, stream + data, 0);
    ParseMatches(m, false, p);
  }

  lemma {:induction false} FeedNativeAllSees(n: Native, stream: Bytes, chunks: seq<Bytes>)
    requires HasSeen(n, stream)
    ensures HasSeen(FeedNativeAll(n, chunks), stream + Flatten(chunks))
    decreases |chunks|
  {
    hide HasSeen, FeedNative;
    if chunks == [] {
      assert stream + Flatten(chunks) == stream;
    } else {
      FeedNativeSees(n, stream, chunks[0]);
      FeedNativeAllSees(FeedNative(n, chunks[0]), stream + chunks[0], chunks[1..]);
      assert stream + Flatten(chunks) == (stream + chunks[0]) + Flatten(chunks[1..]);
    }
  }

  lemma BootHasSeenNothing()
    ensures HasSeen(BOOT, [])
  {
    WaitForFirst();
    TokensWait([], 0);
  }

  /** Same controls and frames, without the decoder's annotations. */
  function Plain(events: seq<NativeEvent>): seq<Event> {
    if events == [] then [] else Plain(events[..|events| - 1]) + PlainEvent(events[|events| - 1])
  }

  function PlainEvent(event: NativeEvent): seq<Event> {
    match event
    case AckSeen(_, _) => [Acknowledged]
    case NakSeen(_, _) => [Refused]
    case FrameSeen(_, frame, _) => [Telegram(Frame(frame.address, frame.payload, frame.raw))]
    case Rejected(_, _, _) => []
  }

  lemma PlainSnoc(events: seq<NativeEvent>, event: NativeEvent)
    ensures Plain(events + [event]) == Plain(events) + PlainEvent(event)
  {
    assert (events + [event])[..|events|] == events;
  }

  lemma {:induction false} PlainEssential(seen: seq<NativeEvent>)
    ensures Plain(Essential(seen)) == Plain(seen)
    decreases |seen|
  {
    if seen != [] {
      var n := |seen| - 1;
      PlainEssential(seen[..n]);
      PlainSnoc(Essential(seen[..n]), seen[n]);
    }
  }

  lemma PlainBoth(p: Pair, item: Item<Token>)
    requires Plain(p.view.events) == p.log.events
    ensures Plain(Both(p, item).view.events) == Both(p, item).log.events
  {
    hide Expected, Received, Plain;
    var v := See(p.view, item);
    if |v.events| > |p.view.events| {
      PlainSnoc(p.view.events, v.events[|p.view.events|]);
    }
  }

  lemma {:induction false} PlainBothAll(p: Pair, items: seq<Item<Token>>)
    requires Plain(p.view.events) == p.log.events
    ensures Plain(BothAll(p, items).view.events) == BothAll(p, items).log.events
    decreases |items|
  {
    hide Both, Plain;
    if items != [] {
      PlainBoth(p, items[0]);
      PlainBothAll(Both(p, items[0]), items[1..]);
    }
  }

  /** Equal pending bytes, offset, reported controls and frames, and shared counters. */
  ghost predicate Agree(n: Native, f: State) {
    && n.buffer == f.buffer && n.offset == f.offset
    && Plain(n.seen) == f.log.events
    && n.stats.validFrames == f.log.stats.frames
    && n.stats.crcFailures == f.log.stats.crcErrors
    && n.stats.noise == f.log.stats.noiseBytes
  }

  lemma AgreeFromMatch(n: Native, recovering: bool, items: seq<Item<Token>>, f: State)
    requires Matches(n, recovering, BothAll(START, items))
    requires n.buffer == f.buffer && n.offset == f.offset && f.log == NoteAll(FRESH.log, items)
    ensures Agree(n, f)
  {
    hide Both, NoteAll, BothAll, Essential, Plain;
    BothAllLog(START, items);
    assert Plain([]) == [] by {
      PlainOfNothing();
    }
    PlainBothAll(START, items);
    PlainEssential(n.seen);
  }

  lemma PlainOfNothing()
    ensures Plain([]) == []
  {
  }

  /** After any sequence of reads the two parsers agree. */
  lemma LiveBisimilar(chunks: seq<Bytes>)
    ensures Agree(FeedNativeAll(BOOT, chunks), FeedAll(FRESH, chunks))
  {
    hide Decide, Matches, Tokens, Agree, FeedAll, FeedNativeAll, BothAll, NoteAll;
    var stream := Flatten(chunks);
    BootHasSeenNothing();
    FeedNativeAllSees(BOOT, [], chunks);
    assert [] + stream == stream;
    WaitForFirst();
    FeedFragmented(FRESH, chunks);
    assert FRESH.buffer + stream == stream;
    AgreeFromMatch(FeedNativeAll(BOOT, chunks), false, Tokens(stream, 0).items, FeedAll(FRESH, chunks));
  }

  /** At the end of the capture `finish` agrees with expiring until the buffer is empty. */
  lemma FinishBisimilar(chunks: seq<Bytes>)
    ensures Agree(FinishNative(FeedNativeAll(BOOT, chunks)), ExpireAll(FeedAll(FRESH, chunks)))
  {
    hide Decide, Matches, Tokens, Agree, FeedAll, FeedNativeAll, BothAll, NoteAll, Parse, Swept, GivenUp, ExpireAll;
    var stream := Flatten(chunks);
    var n := FeedNativeAll(BOOT, chunks);
    BootHasSeenNothing();
    FeedNativeAllSees(BOOT, [], chunks);
    assert [] + stream == stream;
    WaitForFirst();
    FeedFragmented(FRESH, chunks);
    assert FRESH.buffer + stream == stream;
    var f := FeedAll(FRESH, chunks);
    var s := Tokens(stream, 0);
    var more := GivenUp(s.rest, |stream| - |s.rest|);
    SweptIsTokensThenGivenUp(stream, 0);
    RestIsGivenUp(s.rest, |stream| - |s.rest|);
    BothAllConcat(START, s.items, more);
    FinishMatches(n, false, Live(START, stream, 0));
    ExpireAllNotes(f);
    NoteAllConcat(FRESH.log, s.items, more);
    ExpireAllOffset(f);
    AgreeFromMatch(FinishNative(n), BothAll(START, Swept(stream, 0)).view.recovering, Swept(stream, 0), ExpireAll(f));
  }

  lemma RestIsGivenUp(rest: Bytes, offset: nat)
    requires Decide(rest) == Wait
    ensures Swept(rest, offset) == GivenUp(rest, offset)
  {
    hide Decide, Swept, GivenUp;
    SweptIsTokensThenGivenUp(rest, offset);
    TokensWait(rest, offset);
  }

  lemma {:induction false} ExpireAllOffset(st: State)
    ensures ExpireAll(st).offset == st.offset + |st.buffer|
    decreases |st.buffer|
  {
    hide Decide, Note, NoteAll;
    if st.buffer != [] {
      ExpireShrinks(st);
      ExpireAllOffset(Expire(st));
    }
  }
}

/** recording.py and transports/replay.py: raw telegrams beside a timing index, and their replay. */
module Recording {
  import opened Bytes
  import opened IncrementalScan
  import opened Framing
  import opened FramingTheorems
  import opened FramingAccounts

  type Stamp = nat

  /** One line of the timing index, as read: nothing about it is trusted. */
  datatype Entry = Entry(offset: int, length: int, timestamp: Stamp)

  /** From `from` on, the entries cover the file contiguously and end exactly with it. */
  predicate Tiles(entries: seq<Entry>, from: int, size: int) {
    if entries == [] then from == size else
      && entries[0].offset == from && 1 <= entries[0].length <= 814 && from + entries[0].length <= size
      && Tiles(entries[1..], from + entries[0].length, size)
  }

  lemma {:induction false} TilesAppend(entries: seq<Entry>, from: int, size: int, last: Entry)
    requires Tiles(entries, from, size) && last.offset == size && 1 <= last.length <= 814
    ensures Tiles(entries + [last], from, size + last.length)
    decreases |entries|
  {
    if entries == [] {
      assert (entries + [last])[1..] == [];
    } else {
      assert (entries + [last])[1..] == entries[1..] + [last];
      TilesAppend(entries[1..], from + entries[0].length, size, last);
      TilesGrow(entries[1..], from + entries[0].length, size);
    }
  }

  lemma {:induction false} TilesGrow(entries: seq<Entry>, from: int, size: int)
    requires Tiles(entries, from, size)
    ensures from <= size
    decreases |entries|
  {
    if entries != [] {
      TilesGrow(entries[1..], from + entries[0].length, size);
    }
  }

  // ---------------------------------------------------------------- recording

  /** A received telegram and when it was decoded. */
  datatype Scan = Scan(raw: Bytes, timestamp: Stamp)

  predicate Recordable(s: Scan) {
    Accepts(s.raw)
  }

  predicate AllRecordable(scans: seq<Scan>) {
    forall i | 0 <= i < |scans| :: Recordable(scans[i])
  }

  function RawFile(scans: seq<Scan>): Bytes {
    if scans == [] then [] else RawFile(scans[..|scans| - 1]) + scans[|scans| - 1].raw
  }

  function Index(scans: seq<Scan>): seq<Entry> {
    if scans == [] then [] else
      Index(scans[..|scans| - 1])
      + [Entry(|RawFile(scans[..|scans| - 1])|, |scans[|scans| - 1].raw|, scans[|scans| - 1].timestamp)]
  }

  class Recorder {
    var raw: Bytes
    var index: seq<Entry>
    var count: nat
    var closed: bool
    ghost var written: seq<Scan>

    ghost predicate Valid()
      reads this
    {
      raw == RawFile(written) && index == Index(written) && count == |written|
    }

    constructor ()
      ensures Valid() && written == [] && !closed
    {
      raw, index, count, closed, written := [], [], 0, false, [];
    }

    /** `write`; false where it raises because the recording is closed. */
    method Write(scan: Scan) returns (ok: bool)
      requires Valid()
      modifies this
      ensures Valid() && closed == old(closed) && ok == !old(closed)
      ensures written == if ok then old(written) + [scan] else old(written)
    {
      if closed {
        return false;
      }
      var offset := |raw|;
      raw := raw + scan.raw;
      index := index + [Entry(offset, |scan.raw|, scan.timestamp)];
      count := count + 1;
      written := written + [scan];
      assert written[..|written| - 1] == old(written);
      return true;
    }

    method Close()
      requires Valid()
      modifies this`closed
      ensures Valid() && closed
    {
      closed := true;
    }
  }

  /** What a recorder writes is a well-formed index of what it wrote. */
  lemma {:induction false} IndexTiles(scans: seq<Scan>)
    requires AllRecordable(scans)
    ensures Tiles(Index(scans), 0, |RawFile(scans)|)
    decreases |scans|
  {
    hide Tiles, Accepts;
    if scans == [] {
      NothingTiled();
    } else {
      var n := |scans| - 1;
      IndexTiles(scans[..n]);
      RecordableSize(scans[n]);
      TilesAppend(Index(scans[..n]), 0, |RawFile(scans[..n])|,
                  Entry(|RawFile(scans[..n])|, |scans[n].raw|, scans[n].timestamp));
    }
  }

  lemma NothingTiled()
    ensures Tiles([], 0, 0)
  {
  }

  lemma RecordableSize(s: Scan)
    requires Recordable(s)
    ensures 7 <= |s.raw| <= 814
  {
  }

  lemma {:induction false} IndexLooksUp(scans: seq<Scan>, k: nat)
    requires k < |scans|
    ensures |Index(scans)| == |scans|
    ensures Index(scans)[k] == Entry(|RawFile(scans[..k])|, |scans[k].raw|, scans[k].timestamp)
    ensures |RawFile(scans[..k])| + |scans[k].raw| == |RawFile(scans[..k + 1])| <= |RawFile(scans)|
    ensures RawFile(scans)[|RawFile(scans[..k])|..|RawFile(scans[..k + 1])|] == scans[k].raw
    decreases |scans|
  {
    var n := |scans| - 1;
    assert scans[..n + 1] == scans;
    IndexLength(scans);
    assert scans[..k + 1][..k] == scans[..k];
    if k < n {
      IndexLooksUp(scans[..n], k);
      assert scans[..n][..k] == scans[..k] && scans[..n][..k + 1] == scans[..k + 1];
      IndexLength(scans[..n]);
    }
  }

  lemma {:induction false} IndexLength(scans: seq<Scan>)
    ensures |Index(scans)| == |scans|
    decreases |scans|
  {
    if scans != [] {
      IndexLength(scans[..|scans| - 1]);
    }
  }

  // ---------------------------------------------------------------- replay

  datatype Outcome = Data(bytes: Bytes) | Eof | Invalid

  class ReplayTransport {
    const file: Bytes
    const index: Option<seq<Entry>>
    var open: bool
    var pos: nat
    var line: nat
    var remaining: int
    var timestamp: Option<Stamp>

    ghost predicate Valid()
      reads this
    {
      pos <= |file| && (index.Some? ==> line <= |index.value|)
    }

    constructor (file: Bytes, index: Option<seq<Entry>>)
      ensures this.file == file && this.index == index && Valid()
      ensures open && pos == 0 && line == 0 && remaining == 0
    {
      this.file, this.index := file, index;
      open, pos, line, remaining, timestamp := true, 0, 0, 0, None;
    }

    /** The index still to be honoured, seen from the current position. */
    ghost predicate Tiled()
      reads this
    {
      && index.Some? && line <= |index.value| && remaining >= 0 && pos + remaining <= |file|
      && Tiles(index.value[line..], pos + remaining, |file|)
    }

    method Read(size: nat) returns (o: Outcome)
      requires Valid()
      modifies this
      ensures Valid() && open == old(open)
      ensures !old(open) ==> o.Eof?
      ensures o.Data? ==> o.bytes != [] && pos == old(pos) + |o.bytes| && o.bytes == file[old(pos)..pos]
      ensures index.Some? && old(open) ==>
        && (o.Eof? ==> old(Tiled()) && old(line) == |index.value| && old(remaining) == 0)
        && (o.Invalid? && size >= 1 ==> !old(Tiled()))
      ensures index.Some? && o.Data? && old(remaining) >= 0 ==> remaining >= 0
      ensures index.Some? && o.Data? ==>
        && Tiled() == old(Tiled())
        && line == old(line) + (if old(remaining) == 0 then 1 else 0)
        && (old(remaining) == 0 ==>
              && remaining + |o.bytes| == index.value[old(line)].length
              && timestamp == Some(index.value[old(line)].timestamp))
        && (old(remaining) != 0 ==> remaining + |o.bytes| == old(remaining) && timestamp == old(timestamp))
    {
      if !open {
        return Eof;
      }
      if index.Some? && remaining == 0 {
        if line == |index.value| {
          if pos < |file| {
            pos := pos + 1;
            return Invalid;
          }
          return Eof;
        }
        var item := index.value[line];
        assert index.value[line..][0] == item && index.value[line..][1..] == index.value[line + 1..];
        line := line + 1;
        remaining := item.length;
        if !(1 <= remaining <= 814) || item.offset != pos {
          return Invalid;
        }
        timestamp := Some(item.timestamp);
      }
      var cap := if size < 137 then size else 137;
      var amount := if index.Some? && remaining < cap then remaining else cap;
      // a negative count, possible only behind a rejected index line, reads to the end
      var end := if 0 <= amount && pos + amount <= |file| then pos + amount else |file|;
      var data := file[pos..end];
      pos := end;
      if data == [] {
        return if index.Some? && remaining != 0 then Invalid else Eof;
      }
      if index.Some? {
        remaining := remaining - |data|;
      }
      return Data(data);
    }

    method Close()
      modifies this`open
      ensures !open
    {
      open := false;
    }
  }

  /**
   Reading an indexed recording to its end, whatever the file and the index hold, reports EOF
   exactly when the entries tile the file contiguously and exactly.
   */
  method ReadToEnd(file: Bytes, entries: seq<Entry>, size: nat) returns (o: Outcome)
    requires size >= 1
    ensures o.Eof? || o.Invalid?
    ensures o.Eof? <==> Tiles(entries, 0, |file|)
  {
    var t := new ReplayTransport(file, Some(entries));
    assert entries[0..] == entries;
    assert t.Tiled() <==> Tiles(entries, 0, |file|);
    hide Tiles;
    while true
      invariant t.Valid() && t.open && t.index == Some(entries) && t.file == file
      invariant t.Tiled() <==> Tiles(entries, 0, |file|)
      decreases |file| - t.pos
    {
      o := t.Read(size);
      if !o.Data? {
        return;
      }
    }
  }

  // ---------------------------------------------------------------- record, then replay

  /** Feeding the next piece of a valid telegram: nothing, or at its end exactly that telegram. */
  lemma FeedPiece(st: State, raw: Bytes, c: nat, p: nat)
    requires Accepts(raw) && c + p <= |raw| && st.buffer == raw[..c]
    ensures var next := Feed(st, raw[c..c + p]);
      if c + p < |raw| then next == st.(buffer := raw[..c + p])
      else next.buffer == [] && next.log.events == st.log.events + [Telegram(FrameOf(raw))]
  {
    hide Decide, Accepts, CrcValid;
    assert raw[..c] + raw[c..c + p] == raw[..c + p];
    var fed := st.(buffer := raw[..c + p]);
    if c + p < |raw| {
      PartWaits(raw, c + p);
      AdvanceWait(fed);
    } else {
      assert raw[..c + p] == raw && raw + [] == raw;
      DecideAccepted(raw, []);
      AdvanceTake(fed);
      assert raw[|raw|..] == [];
      var next := Turn(fed);
      WaitForFirst();
      AdvanceWait(next);
      AcceptedIsLong(raw);
    }
  }

  lemma AcceptedIsLong(raw: Bytes)
    requires Accepts(raw)
    ensures 7 <= |raw| <= 814
  {
  }

  /** What the replay loop hands on: an event and the timestamp the transport shows with it. */
  datatype Replayed = Replayed(event: Event, timestamp: Option<Stamp>)

  function Stamped(events: seq<Event>, timestamp: Option<Stamp>): (r: seq<Replayed>)
    ensures |r| == |events|
    ensures forall i | 0 <= i < |events| :: r[i] == Replayed(events[i], timestamp)
  {
    seq(|events|, i requires 0 <= i < |events| => Replayed(events[i], timestamp))
  }

  function Faithful(scans: seq<Scan>): (r: seq<Replayed>)
    requires AllRecordable(scans)
    ensures |r| == |scans|
  {
    seq(|scans|, i requires 0 <= i < |scans| => Replayed(Telegram(FrameOf(scans[i].raw)), Some(scans[i].timestamp)))
  }

  /** `k` telegrams have been replayed and `c` bytes of the next one are in the framer. */
  ghost predicate Midway(t: ReplayTransport, framer: Framer, scans: seq<Scan>, k: nat, c: nat)
    reads t, framer
  {
    && t.Valid() && t.open && t.index == Some(Index(scans)) && t.file == RawFile(scans) && t.Tiled()
    && k <= |scans| && t.pos == |RawFile(scans[..k])| + c
    && if c == 0 then t.remaining == 0 && t.line == k && framer.buffer == []
       else && k < |scans| && t.line == k + 1 && c < |scans[k].raw| && t.remaining == |scans[k].raw| - c
            && framer.buffer == scans[k].raw[..c] && t.timestamp == Some(scans[k].timestamp)
  }

  /** One `read` in the middle of a recording: its end, or the next piece of telegram `k`. */
  method ReadPiece(t: ReplayTransport, framer: Framer, ghost scans: seq<Scan>, size: nat, ghost k: nat, ghost c: nat)
    returns (o: Outcome)
    requires AllRecordable(scans) && size >= 1 && Midway(t, framer, scans, k, c)
    modifies t
    ensures t.Valid() && t.open
    ensures o.Eof? || o.Data?
    ensures o.Eof? ==> k == |scans| && framer.buffer == []
    ensures o.Data? ==>
      && k < |scans| && o.bytes != [] && c + |o.bytes| <= |scans[k].raw| && o.bytes == scans[k].raw[c..c + |o.bytes|]
      && t.Tiled() && t.pos == |RawFile(scans[..k])| + c + |o.bytes|
      && t.remaining == |scans[k].raw| - c - |o.bytes| && t.line == k + 1 && t.timestamp == Some(scans[k].timestamp)
  {
    hide Tiles, Index, RawFile, Accepts, t.Tiled;
    IndexLength(scans);
    if k < |scans| {
      IndexLooksUp(scans, k);
      RecordableSize(scans[k]);
    }
    hide AllRecordable;
    o := t.Read(size);
    if o.Data? {
      SliceOfSlice(t.file, |RawFile(scans[..k])|, scans[k].raw, c, |o.bytes|);
    }
  }

  lemma SliceOfSlice(file: Bytes, at: nat, raw: Bytes, c: nat, m: nat)
    requires at + |raw| <= |file| && file[at..at + |raw|] == raw && c + m <= |raw|
    ensures file[at + c..at + c + m] == raw[c..c + m]
  {
    var piece := file[at + c..at + c + m];
    forall i | 0 <= i < m
      ensures piece[i] == raw[c..c + m][i]
    {
      assert file[at..at + |raw|][c + i] == raw[c + i];
    }
  }

  /** A replay of the recording, opened and ready. */
  method OpenRecording(scans: seq<Scan>) returns (t: ReplayTransport, framer: Framer)
    requires AllRecordable(scans)
    ensures fresh(t) && fresh(framer) && Midway(t, framer, scans, 0, 0)
  {
    t := new ReplayTransport(RawFile(scans), Some(Index(scans)));
    framer := new Framer();
    IndexTiles(scans);
    assert Index(scans)[0..] == Index(scans);
    assert scans[..0] == [];
  }

  /** Feed one piece and stamp what comes out. */
  method ReplayPiece(framer: Framer, timestamp: Option<Stamp>, bytes: Bytes, out: seq<Replayed>,
                     ghost scans: seq<Scan>, ghost k: nat, ghost c: nat) returns (longer: seq<Replayed>)
    requires AllRecordable(scans) && k < |scans|
    requires c + |bytes| <= |scans[k].raw| && bytes == scans[k].raw[c..c + |bytes|]
    requires framer.buffer == scans[k].raw[..c] && timestamp == Some(scans[k].timestamp)
    requires out == Faithful(scans)[..k]
    modifies framer
    ensures if c + |bytes| < |scans[k].raw| then framer.buffer == scans[k].raw[..c + |bytes|] && longer == out
            else framer.buffer == [] && longer == Faithful(scans)[..k + 1]
  {
    hide Feed, Accepts;
    ghost var raw := scans[k].raw;
    assert Recordable(scans[k]);
    RecordableSize(scans[k]);
    ghost var before := framer.Value();
    var events := framer.FeedBytes(bytes);
    FeedPiece(before, raw, c, |bytes|);
    assert events == framer.emitted[|before.log.events|..];
    longer := out + Stamped(events, timestamp);
    if c + |bytes| < |raw| {
      assert events == [];
      assert Stamped(events, timestamp) == [] && out + [] == out;
    } else {
      assert events == [Telegram(FrameOf(raw))];
      assert longer == Faithful(scans)[..k] + [Faithful(scans)[k]] == Faithful(scans)[..k + 1];
    }
  }

  /** One turn of the replay loop. */
  method ReplayTurn(t: ReplayTransport, framer: Framer, out: seq<Replayed>, size: nat,
                    ghost scans: seq<Scan>, ghost k: nat, ghost c: nat)
    returns (o: Outcome, longer: seq<Replayed>, ghost done: nat, ghost part: nat)
    requires AllRecordable(scans) && size >= 1 && Midway(t, framer, scans, k, c) && out == Faithful(scans)[..k]
    modifies t, framer
    ensures o.Eof? || o.Data?
    ensures o.Eof? ==> k == |scans| && framer.buffer == [] && longer == out
    ensures o.Data? ==>
      && Midway(t, framer, scans, done, part) && longer == Faithful(scans)[..done]
      && t.pos > old(t.pos)
  {
    hide Tiles, Index, RawFile, AllRecordable, Faithful;
    o := ReadPiece(t, framer, scans, size, k, c);
    longer, done, part := out, k, c;
    if o.Data? {
      longer := ReplayPiece(framer, t.timestamp, o.bytes, out, scans, k, c);
      if c + |o.bytes| < |scans[k].raw| {
        part := c + |o.bytes|;
      } else {
        RawFileStep(scans, k);
        done, part := k + 1, 0;
      }
    }
  }

  /**
   Replaying what was recorded returns exactly the recorded telegrams in order, each completed
   while the transport shows its own timestamp, then EOF with an empty framing buffer.
   */
  method ReplayRecording(scans: seq<Scan>, size: nat) returns (out: seq<Replayed>, o: Outcome, rest: Bytes)
    requires AllRecordable(scans) && size >= 1
    ensures out == Faithful(scans) && o.Eof? && rest == []
  {
    var t, framer := OpenRecording(scans);
    out := [];
    ghost var k: nat, c: nat := 0, 0;
    hide Tiles, Index, RawFile, AllRecordable, Faithful;
    while true
      invariant fresh(t) && fresh(framer)
      invariant Midway(t, framer, scans, k, c)
      invariant out == Faithful(scans)[..k]
      decreases |t.file| - t.pos
    {
      o, out, k, c := ReplayTurn(t, framer, out, size, scans, k, c);
      if !o.Data? {
        rest := framer.buffer;
        assert Faithful(scans)[..|scans|] == Faithful(scans);
        return;
      }
    }
  }

  lemma RawFileStep(scans: seq<Scan>, k: nat)
    requires k < |scans|
    ensures |RawFile(scans[..k + 1])| == |RawFile(scans[..k])| + |scans[k].raw|
  {
    assert scans[..k + 1][..k] == scans[..k];
  }
}

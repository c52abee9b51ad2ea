/**
 Incremental scanning of a byte stream.  A parser is given by what it decides about the bytes at
 the front of its buffer: take a token of some size, or wait for more bytes.  A decision that more
 input cannot change makes the parser independent of how the stream was cut into reads.
 */
module IncrementalScan {
  import opened Bytes

  datatype Decision<T> = Wait | Take(token: T, size: nat)

  type Parser<!T> = Bytes -> Decision<T>

  /** A token, where it starts in the stream and how many bytes it used up. */
  datatype Item<T> = Item(offset: nat, token: T, size: nat)

  datatype Scanned<T> = Scanned(items: seq<Item<T>>, rest: Bytes)

  ghost predicate Stable<T(!new)>(decide: Parser<T>) {
    && decide([]) == Wait
    && (forall b :: decide(b).Take? ==> 1 <= decide(b).size <= |b|)
    && (forall b, c :: decide(b).Take? ==> decide(b + c) == decide(b))
  }

  lemma Decided<T(!new)>(decide: Parser<T>, b: Bytes, c: Bytes)
    requires Stable(decide) && decide(b).Take?
    ensures b != [] && 1 <= decide(b).size <= |b| && decide(b + c) == decide(b)
  {
  }

  /** Take tokens off the front of the buffer until the parser waits. */
  function Scan<T(!new)>(decide: Parser<T>, buffer: Bytes, offset: nat): (s: Scanned<T>)
    requires Stable(decide)
    ensures decide(s.rest) == Wait && |s.rest| <= |buffer|
    decreases |buffer|
  {
    match decide(buffer)
    case Wait => Scanned([], buffer)
    case Take(token, size) => Prepend(Item(offset, token, size), Scan(decide, buffer[size..], offset + size))
  }

  function Prepend<T>(item: Item<T>, s: Scanned<T>): Scanned<T> {
    Scanned([item] + s.items, s.rest)
  }

  lemma ScanWait<T(!new)>(decide: Parser<T>, buffer: Bytes, offset: nat)
    requires Stable(decide) && decide(buffer) == Wait
    ensures Scan(decide, buffer, offset) == Scanned([], buffer)
  {
  }

  lemma ScanTake<T(!new)>(decide: Parser<T>, buffer: Bytes, offset: nat, token: T, size: nat)
    requires Stable(decide) && decide(buffer) == Take(token, size)
    ensures 1 <= size <= |buffer|
    ensures Scan(decide, buffer, offset)
         == Prepend(Item(offset, token, size), Scan(decide, buffer[size..], offset + size))
  {
  }

  lemma DropAppend(a: Bytes, b: Bytes, n: nat)
    requires n <= |a|
    ensures (a + b)[n..] == a[n..] + b
  {
  }

  /** Scanning a buffer and then more bytes is scanning both at once. */
  lemma {:induction false} ScanResume<T(!new)>(decide: Parser<T>, a: Bytes, b: Bytes, offset: nat)
    requires Stable(decide)
    ensures var s := Scan(decide, a, offset);
            var t := Scan(decide, s.rest + b, offset + |a| - |s.rest|);
            Scan(decide, a + b, offset) == Scanned(s.items + t.items, t.rest)
    decreases |a|
  {
    hide Stable, Scan;
    match decide(a)
    case Wait =>
      ScanWait(decide, a, offset);
    case Take(token, size) =>
      Decided(decide, a, b);
      ScanTake(decide, a, offset, token, size);
      ScanTake(decide, a + b, offset, token, size);
      DropAppend(a, b, size);
      ScanResume(decide, a[size..], b, offset + size);
      var s := Scan(decide, a[size..], offset + size);
      var t := Scan(decide, s.rest + b, offset + |a| - |s.rest|);
      Regroup([Item(offset, token, size)], s.items, t.items);
  }

  // ---------------------------------------------------------------- end of the capture

  /** Give up the first byte of a stalled buffer and scan on; repeat until nothing is left. */
  ghost function GiveUp<T(!new)>(decide: Parser<T>, lost: T, rest: Bytes, offset: nat): seq<Item<T>>
    requires Stable(decide)
    decreases |rest|
  {
    if rest == [] then [] else
      var s := Scan(decide, rest[1..], offset + 1);
      [Item(offset, lost, 1)] + (s.items + GiveUp(decide, lost, s.rest, offset + |rest| - |s.rest|))
  }

  /** The same without any buffering: at every position take a token or skip one byte. */
  ghost function Sweep<T(!new)>(decide: Parser<T>, lost: T, stream: Bytes, offset: nat): seq<Item<T>>
    requires Stable(decide)
    decreases |stream|
  {
    if stream == [] then [] else
      match decide(stream)
      case Wait => [Item(offset, lost, 1)] + Sweep(decide, lost, stream[1..], offset + 1)
      case Take(token, size) => [Item(offset, token, size)] + Sweep(decide, lost, stream[size..], offset + size)
  }

  lemma SweepTake<T(!new)>(decide: Parser<T>, lost: T, stream: Bytes, offset: nat, token: T, size: nat)
    requires Stable(decide) && decide(stream) == Take(token, size)
    ensures 1 <= size <= |stream|
    ensures Sweep(decide, lost, stream, offset)
         == [Item(offset, token, size)] + Sweep(decide, lost, stream[size..], offset + size)
  {
  }

  lemma SweepWait<T(!new)>(decide: Parser<T>, lost: T, stream: Bytes, offset: nat)
    requires Stable(decide) && decide(stream) == Wait
    ensures Sweep(decide, lost, stream, offset)
         == if stream == [] then [] else [Item(offset, lost, 1)] + Sweep(decide, lost, stream[1..], offset + 1)
  {
  }

  lemma {:induction false} GiveUpIsSweep<T(!new)>(decide: Parser<T>, lost: T, stream: Bytes, offset: nat)
    requires Stable(decide)
    ensures var s := Scan(decide, stream, offset);
            Sweep(decide, lost, stream, offset)
            == s.items + GiveUp(decide, lost, s.rest, offset + |stream| - |s.rest|)
    decreases |stream|
  {
    hide Stable, Scan, Sweep;
    match decide(stream)
    case Wait =>
      SweepWait(decide, lost, stream, offset);
      ScanWait(decide, stream, offset);
      if stream != [] {
        GiveUpIsSweep(decide, lost, stream[1..], offset + 1);
      }
    case Take(token, size) =>
      hide GiveUp;
      SweepTake(decide, lost, stream, offset, token, size);
      ScanTake(decide, stream, offset, token, size);
      GiveUpIsSweep(decide, lost, stream[size..], offset + size);
      var s := Scan(decide, stream[size..], offset + size);
      Regroup([Item(offset, token, size)], s.items, GiveUp(decide, lost, s.rest, offset + |stream| - |s.rest|));
  }

  // ---------------------------------------------------------------- where the tokens lie

  /** The item is what the parser decides at the item's own offset. */
  ghost predicate DecidedAt<T(!new)>(decide: Parser<T>, stream: Bytes, offset: nat, item: Item<T>) {
    && offset <= item.offset <= offset + |stream|
    && decide(stream[item.offset - offset..]) == Take(item.token, item.size)
  }

  lemma DecidedFurther<T(!new)>(decide: Parser<T>, stream: Bytes, offset: nat, size: nat, item: Item<T>)
    requires size <= |stream| && DecidedAt(decide, stream[size..], offset + size, item)
    ensures DecidedAt(decide, stream, offset, item)
  {
    assert stream[item.offset - offset..] == stream[size..][item.offset - (offset + size)..];
  }

  /** Each item is decided at its own offset, and items never share bytes. */
  lemma {:induction false} ItemsDecided<T(!new)>(decide: Parser<T>, buffer: Bytes, offset: nat, i: nat)
    requires Stable(decide)
    requires i < |Scan(decide, buffer, offset).items|
    ensures DecidedAt(decide, buffer, offset, Scan(decide, buffer, offset).items[i])
    ensures var items := Scan(decide, buffer, offset).items;
            forall j | i < j < |items| :: items[i].offset + items[i].size <= items[j].offset
    decreases |buffer|
  {
    hide Stable, Scan;
    match decide(buffer)
    case Wait =>
      ScanWait(decide, buffer, offset);
    case Take(token, size) =>
      ScanTake(decide, buffer, offset, token, size);
      var later := Scan(decide, buffer[size..], offset + size).items;
      if i == 0 {
        assert buffer[0..] == buffer;
        hide DecidedAt;
        forall j | 0 <= j < |later|
          ensures offset + size <= later[j].offset
        {
          ItemsDecided(decide, buffer[size..], offset + size, j);
          OffsetBound(decide, buffer[size..], offset + size, later[j]);
        }
        assert DecidedAt(decide, buffer, offset, Item(offset, token, size)) by {
          FirstDecided(decide, buffer, offset, token, size);
        }
      } else {
        ItemsDecided(decide, buffer[size..], offset + size, i - 1);
        DecidedFurther(decide, buffer, offset, size, later[i - 1]);
      }
  }

  lemma FirstDecided<T(!new)>(decide: Parser<T>, buffer: Bytes, offset: nat, token: T, size: nat)
    requires decide(buffer) == Take(token, size)
    ensures DecidedAt(decide, buffer, offset, Item(offset, token, size))
  {
    assert buffer[0..] == buffer;
  }

  lemma OffsetBound<T(!new)>(decide: Parser<T>, stream: Bytes, offset: nat, item: Item<T>)
    requires DecidedAt(decide, stream, offset, item)
    ensures offset <= item.offset
  {
  }
}

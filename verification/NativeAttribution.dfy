/** Which decoder events may be attributed to a command: the meaning of the empty reason. */
module NativeAttribution {
  import opened Bytes
  import opened Framing
  import opened FramingTheorems
  import opened NativeDecoder
  import opened NativeTheorems

  // ---------------------------------------------------------------- finish

  ghost predicate NoneClear(before: seq<NativeEvent>, after: seq<NativeEvent>) {
    && |before| <= |after| && after[..|before|] == before
    && forall i | |before| <= i < |after| :: after[i].reason != Clear
  }

  lemma NoneClearTrans(a: seq<NativeEvent>, b: seq<NativeEvent>, c: seq<NativeEvent>)
    requires NoneClear(a, b) && NoneClear(b, c)
    ensures NoneClear(a, c)
  {
    assert c[..|a|] == c[..|b|][..|a|];
    assert forall i | |a| <= i < |b| :: c[i] == c[..|b|][i];
  }

  /** A turn taken while recovering, or one that gives up, reports nothing as clear. */
  lemma TurnNotClear(n: Native, recovering: bool)
    requires n.buffer != []
    requires recovering || (n.buffer[0] == STX && ShortOf(n.buffer))
    ensures ParseTurn(n, recovering, true).recovering
    ensures NoneClear(n.seen, ParseTurn(n, recovering, true).decoder.seen)
  {
    hide Expected, Received;
  }

  lemma {:induction false} RecoveryNotClear(n: Native, recovering: bool)
    requires recovering || n.buffer == [] || (n.buffer[0] == STX && ShortOf(n.buffer))
    ensures Parse(n, recovering, true).buffer == []
    ensures NoneClear(n.seen, Parse(n, recovering, true).seen)
    decreases |n.buffer|
  {
    hide ParseTurn, ShortOf;
    if n.buffer != [] {
      TurnNotClear(n, recovering);
      var q := ParseTurn(n, recovering, true);
      RecoveryNotClear(q.decoder, q.recovering);
      NoneClearTrans(n.seen, q.decoder.seen, Parse(n, recovering, true).seen);
    }
  }

  /** After any live capture, `finish` empties the buffer and reports nothing without a reason. */
  lemma FinishExplainsEverything(chunks: seq<Bytes>)
    ensures var n := FeedNativeAll(BOOT, chunks);
      FinishNative(n).buffer == [] && NoneClear(n.seen, FinishNative(n).seen)
  {
    hide Matches, Tokens, Live, FeedNativeAll, Parse, NoneClear;
    BootHasSeenNothing();
    FeedNativeAllSees(BOOT, [], chunks);
    var n := FeedNativeAll(BOOT, chunks);
    assert !Decide(n.buffer).Take?;
    RecoveryNotClear(n, false);
  }

  // ---------------------------------------------------------------- live attribution

  predicate CandidateRejected(event: NativeEvent) {
    event.Rejected? && (event.reason == InvalidLength || event.reason == CrcMismatch)
  }

  /** A candidate was rejected and no frame has been accepted since. */
  predicate Doubtful(seen: seq<NativeEvent>) {
    exists j | 0 <= j < |seen| ::
      CandidateRejected(seen[j]) && forall k | j < k < |seen| :: !seen[k].FrameSeen?
  }

  /** Every control event is clear exactly when nothing doubtful precedes it. */
  ghost predicate Attributed(seen: seq<NativeEvent>) {
    forall i | 0 <= i < |seen| ::
      && (seen[i].AckSeen? || seen[i].NakSeen? ==> (seen[i].reason == Clear <==> !Doubtful(seen[..i])))
      && (seen[i].FrameSeen? ==> seen[i].reason == Clear)
  }

  ghost predicate Attributes(n: Native) {
    Attributed(n.seen) && n.ambiguous == Doubtful(n.seen)
  }

  lemma DoubtfulSnoc(seen: seq<NativeEvent>, event: NativeEvent)
    ensures Doubtful(seen + [event])
         <==> CandidateRejected(event) || (Doubtful(seen) && !event.FrameSeen?)
  {
    var longer := seen + [event];
    if CandidateRejected(event) {
      assert CandidateRejected(longer[|seen|]);
    } else if Doubtful(seen) && !event.FrameSeen? {
      var j :| 0 <= j < |seen| && CandidateRejected(seen[j]) && forall k | j < k < |seen| :: !seen[k].FrameSeen?;
      assert CandidateRejected(longer[j]);
    }
    if Doubtful(longer) {
      var j :| 0 <= j < |longer| && CandidateRejected(longer[j]) && forall k | j < k < |longer| :: !longer[k].FrameSeen?;
      if j < |seen| {
        assert !longer[|seen|].FrameSeen?;
        assert CandidateRejected(seen[j]);
        assert forall k | j < k < |seen| :: seen[k] == longer[k];
      }
    }
  }

  lemma AttributedSnoc(seen: seq<NativeEvent>, event: NativeEvent)
    requires Attributed(seen)
    requires event.AckSeen? || event.NakSeen? ==> (event.reason == Clear <==> !Doubtful(seen))
    requires event.FrameSeen? ==> event.reason == Clear
    ensures Attributed(seen + [event])
  {
    hide Doubtful;
    var longer := seen + [event];
    forall i | 0 <= i < |longer|
      ensures longer[..i] == if i < |seen| then seen[..i] else seen
    {
    }
  }

  lemma LiveTurnAttributes(n: Native)
    requires Busy(n.buffer, false) && Attributes(n)
    ensures Attributes(ParseTurn(n, false, false).decoder) && !ParseTurn(n, false, false).recovering
  {
    hide Expected, Received, Doubtful, Attributed;
    var q := ParseTurn(n, false, false);
    var event := q.decoder.seen[|n.seen|];
    assert q.decoder.seen == n.seen + [event];
    DoubtfulSnoc(n.seen, event);
    AttributedSnoc(n.seen, event);
  }

  lemma {:induction false} ParseAttributes(n: Native)
    requires Attributes(n)
    ensures Attributes(Parse(n, false, false))
    decreases |n.buffer|
  {
    hide ParseTurn, Attributes, Busy;
    if Busy(n.buffer, false) {
      LiveTurnAttributes(n);
      ParseAttributes(ParseTurn(n, false, false).decoder);
    }
  }

  /**
   During live feeding, cut in any way, a control event has an empty reason exactly when no
   candidate was rejected since the last accepted frame, and every frame has one.
   */
  lemma {:induction false} LiveAttribution(n: Native, chunks: seq<Bytes>)
    requires Attributes(n)
    ensures Attributes(FeedNativeAll(n, chunks))
    decreases |chunks|
  {
    hide Attributed, Doubtful, Parse;
    if chunks != [] {
      ParseAttributes(n.(buffer := n.buffer + chunks[0], stats := n.stats.(rawBytes := n.stats.rawBytes + |chunks[0]|)));
      LiveAttribution(FeedNative(n, chunks[0]), chunks[1..]);
    }
  }

  lemma BootAttributes()
    ensures Attributes(BOOT)
  {
  }

  /**
   In every live capture a control byte carries no reason exactly when no candidate was rejected
   since the last accepted frame.
   */
  lemma ControlsAttributed(chunks: seq<Bytes>)
    ensures Attributed(FeedNativeAll(BOOT, chunks).seen)
  {
    BootAttributes();
    LiveAttribution(BOOT, chunks);
  }
}

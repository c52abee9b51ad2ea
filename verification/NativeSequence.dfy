/** `run_sequence` of tools/lms200_native/sequence.cpp over an IO object that may answer or throw anything. */
module NativeSequence {
  import opened Bytes
  import opened Framing
  import opened Handshake

  datatype Exchange = Exchange(success: bool, writeAttempted: bool, mayRetry: bool, status: StatusInfo)

  /** Every call into the IO object returns or throws. */
  datatype Outcome<T> = Returned(value: T) | Threw

  datatype Sent = Sent(command: Command, cleanup: bool, outcome: Outcome<Exchange>)

  /**
   `SequenceIO`.  What each call does is an arbitrary function of how many calls were made before,
   so a theorem about every such object covers every behaviour.  `sent` records the exchanges.
   */
  class SequenceIo {
    const exchanging: nat -> Outcome<Exchange>
    const capturing: nat -> Outcome<bool>
    const interrupting: nat -> Outcome<bool>
    const noting: nat -> Outcome<bool>
    var step: nat
    ghost var sent: seq<Sent>
    ghost var captured: bool  // some capture ran to its end

    constructor (exchanging: nat -> Outcome<Exchange>, capturing: nat -> Outcome<bool>,
                 interrupting: nat -> Outcome<bool>, noting: nat -> Outcome<bool>)
      ensures sent == [] && !captured
    {
      this.exchanging, this.capturing := exchanging, capturing;
      this.interrupting, this.noting := interrupting, noting;
      step, sent, captured := 0, [], false;
    }

    method Exchange(command: Command, cleanup: bool) returns (outcome: Outcome<Exchange>)
      modifies this`step, this`sent
      ensures sent == old(sent) + [Sent(command, cleanup, outcome)]
    {
      outcome := exchanging(step);
      step := step + 1;
      sent := sent + [Sent(command, cleanup, outcome)];
    }

    method Capture() returns (outcome: Outcome<bool>)
      modifies this`step, this`captured
      ensures captured == (old(captured) || outcome == Returned(true))
    {
      outcome := capturing(step);
      step := step + 1;
      captured := captured || outcome == Returned(true);
    }

    method Interrupted() returns (outcome: Outcome<bool>)
      modifies this`step
    {
      outcome := interrupting(step);
      step := step + 1;
    }

    method Note() returns (outcome: Outcome<bool>)
      modifies this`step
    {
      outcome := noting(step);
      step := step + 1;
    }
  }

  datatype SequenceResult = SequenceResult(
    original: StatusInfo, statusConfirmed: bool, variantRequested: bool, variantConfirmed: bool,
    startAttempted: bool, startConfirmed: bool, captureComplete: bool,
    stopAttempted: bool, stopResponseValid: bool, stopConfirmed: bool, stopAmbiguous: bool,
    sequenceComplete: bool)

  const BLANK := SequenceResult(
    NO_STATUS, false, false, false, false, false, false, false, false, false, false, false)

  // ---------------------------------------------------------------- which traces are allowed

  predicate Succeeded(s: Sent) {
    s.outcome.Returned? && s.outcome.value.success
  }

  predicate Silent(s: Sent) {
    s.outcome.Returned? && !s.outcome.value.success && s.outcome.value.mayRetry
  }

  /** One to three status requests; each one behind the first follows a silent one. */
  predicate StatusPhase(sent: seq<Sent>) {
    && |sent| <= 3
    && (forall i | 0 <= i < |sent| :: sent[i].command == Status && !sent[i].cleanup)
    && (forall i | 0 <= i < |sent| - 1 :: Silent(sent[i]))
  }

  predicate AllSilent(sent: seq<Sent>) {
    StatusPhase(sent) && forall i | 0 <= i < |sent| :: Silent(sent[i])
  }

  lemma OneMoreStatus(sent: seq<Sent>, outcome: Outcome<Exchange>)
    requires AllSilent(sent) && |sent| < 3
    ensures StatusPhase(sent + [Sent(Status, false, outcome)])
    ensures Silent(Sent(Status, false, outcome)) ==> AllSilent(sent + [Sent(Status, false, outcome)])
  {
  }

  /** The status phase ended with an accepted B1 in monitoring mode 25. */
  predicate StatusPassed(sent: seq<Sent>) {
    StatusPhase(sent) && sent != [] && Succeeded(sent[|sent| - 1])
    && sent[|sent| - 1].outcome.value.status.operatingMode == 0x25
  }

  predicate IsCall(s: Sent, command: Command, cleanup: bool) {
    s.command == command && s.cleanup == cleanup
  }

  /** Everything before Start: the status phase, and the variant exactly when it was requested. */
  predicate Prepared(sent: seq<Sent>, setVariant: bool) {
    if setVariant then
      && sent != [] && IsCall(sent[|sent| - 1], Variant, false) && Succeeded(sent[|sent| - 1])
      && StatusPassed(sent[..|sent| - 1])
    else StatusPassed(sent)
  }

  /** Start may have reached the scanner: the call threw, or it reported a write attempt. */
  predicate MayHaveStarted(s: Sent) {
    s.outcome.Threw? || s.outcome.value.writeAttempted
  }

  /** A complete trace: how far it got, and Stop exactly behind a Start that may have arrived. */
  predicate Legal(sent: seq<Sent>, setVariant: bool) {
    || StatusPhase(sent)
    || (setVariant && VariantFailed(sent))
    || (setVariant && Prepared(sent, setVariant))
    || StoppedShort(sent, setVariant)
    || StoppedAgain(sent, setVariant)
  }

  predicate VariantFailed(sent: seq<Sent>) {
    sent != [] && IsCall(sent[|sent| - 1], Variant, false) && StatusPassed(sent[..|sent| - 1])
  }

  predicate StoppedShort(sent: seq<Sent>, setVariant: bool) {
    && sent != [] && IsCall(sent[|sent| - 1], Start, false) && !MayHaveStarted(sent[|sent| - 1])
    && Prepared(sent[..|sent| - 1], setVariant)
  }

  predicate StoppedAgain(sent: seq<Sent>, setVariant: bool) {
    && |sent| >= 2 && IsCall(sent[|sent| - 1], Stop, true)
    && IsCall(sent[|sent| - 2], Start, false) && MayHaveStarted(sent[|sent| - 2])
    && Prepared(sent[..|sent| - 2], setVariant)
  }

  /** Start and stop were both confirmed. */
  predicate StartStopConfirmed(sent: seq<Sent>, setVariant: bool) {
    StoppedAgain(sent, setVariant) && Succeeded(sent[|sent| - 2]) && Succeeded(sent[|sent| - 1])
  }

  // ---------------------------------------------------------------- the program

  /** The `stop` lambda; `call` is the exchange it made, if any. */
  method StopOnce(io: SequenceIo, before: SequenceResult) returns (result: SequenceResult, ghost call: Option<Sent>)
    modifies io`step, io`sent
    ensures result == before.(stopAttempted := result.stopAttempted, stopResponseValid := result.stopResponseValid,
                              stopConfirmed := result.stopConfirmed, stopAmbiguous := result.stopAmbiguous)
    ensures call.None? <==> !before.startAttempted || before.stopAttempted
    ensures call.None? ==> io.sent == old(io.sent) && result == before
    ensures call.Some? ==>
      && result.stopAttempted
      && io.sent == old(io.sent) + [call.value] && IsCall(call.value, Stop, true)
      && (!before.stopConfirmed ==> result.stopConfirmed == (before.startConfirmed && Succeeded(call.value)))
      && (!before.stopResponseValid ==> result.stopResponseValid == Succeeded(call.value))
      && (!before.stopAmbiguous ==>
            result.stopAmbiguous == (call.value.outcome.Returned? && !before.startConfirmed))
  {
    result, call := before, None;
    if !result.startAttempted || result.stopAttempted {
      return;
    }
    result := result.(stopAttempted := true);
    var response := io.Exchange(Stop, true);
    call := Some(Sent(Stop, true, response));
    if response.Returned? {
      var success := response.value.success;
      result := result.(stopResponseValid := success, stopConfirmed := success && result.startConfirmed,
                        stopAmbiguous := !result.startConfirmed);
    }
  }

  /** One iteration of the retry loop: `again` where the source goes round once more. */
  method TryStatus(io: SequenceIo, attempt: nat) returns (status: Option<StatusInfo>, again: bool, threw: bool)
    requires AllSilent(io.sent) && |io.sent| == attempt - 1 && attempt <= 3
    modifies io`step, io`sent
    ensures StatusPhase(io.sent)
    ensures status.Some? ==> !again && !threw && AcceptedLast(io.sent, status.value)
    ensures again ==> AllSilent(io.sent) && |io.sent| == attempt && attempt < 3
  {
    assert StatusPhase(io.sent);
    hide StatusPhase, AllSilent;
    status, again, threw := None, false, false;
    var interrupted := io.Interrupted();
    if interrupted.Threw? || interrupted.value {
      threw := interrupted.Threw?;
      return;
    }
    ghost var earlier := io.sent;
    var response := io.Exchange(Status, false);
    OneMoreStatus(earlier, response);
    if response.Threw? {
      threw := true;
      return;
    }
    if response.value.success {
      status := Some(response.value.status);
      return;
    }
    if !response.value.mayRetry || attempt == 3 {
      return;
    }
    interrupted := io.Interrupted();
    if interrupted.Threw? || interrupted.value {
      threw := interrupted.Threw?;
      return;
    }
    var noted := io.Note();
    threw := noted.Threw?;
    again := noted.Returned?;
  }

  predicate AcceptedLast(sent: seq<Sent>, status: StatusInfo) {
    sent != [] && Succeeded(sent[|sent| - 1]) && sent[|sent| - 1].outcome.value.status == status
  }

  /** The retry loop over Status. */
  method RequestStatus(io: SequenceIo) returns (status: Option<StatusInfo>, threw: bool)
    requires io.sent == []
    modifies io`step, io`sent
    ensures StatusPhase(io.sent)
    ensures status.Some? ==> !threw && AcceptedLast(io.sent, status.value)
  {
    assert AllSilent(io.sent);
    hide StatusPhase, AllSilent, AcceptedLast;
    status, threw := None, false;
    for attempt := 1 to 4
      invariant |io.sent| == attempt - 1
      invariant attempt < 4  // the third round never asks for another
      invariant AllSilent(io.sent)
    {
      var again;
      status, again, threw := TryStatus(io, attempt);
      if !again {
        return;
      }
    }
  }

  /** The `try` block behind the status loop, up to and including Variant. */
  method Prepare(io: SequenceIo, before: SequenceResult, setVariant: bool)
    returns (result: SequenceResult, go: bool, threw: bool)
    requires io.sent == [] && before == BLANK.(variantRequested := setVariant)
    modifies io`step, io`sent
    ensures StatusPhase(io.sent) || (setVariant && VariantFailed(io.sent))
    ensures go ==> !threw && Prepared(io.sent, setVariant)
    ensures !result.startAttempted && !result.stopAttempted && !result.sequenceComplete && !result.startConfirmed
            && !result.stopConfirmed && !result.captureComplete && result.variantRequested == setVariant
    ensures go ==> result.statusConfirmed && result.original.operatingMode == 0x25
                   && result.variantConfirmed == setVariant
  {
    result, go := before, false;
    var status;
    status, threw := RequestStatus(io);
    if status.None? {
      return;
    }
    result := result.(statusConfirmed := true, original := status.value);
    if result.original.operatingMode != 0x25 {
      return;
    }
    assert StatusPassed(io.sent);
    if setVariant {
      var interrupted := io.Interrupted();
      if interrupted.Threw? {
        threw := true;
        return;
      }
      if interrupted.value {
        return;
      }
      ghost var statuses := io.sent;
      var response := io.Exchange(Variant, false);
      assert io.sent[..|io.sent| - 1] == statuses;
      if response.Threw? {
        threw := true;
        return;
      }
      if !response.value.success {
        return;
      }
      result := result.(variantConfirmed := true);
    }
    go := true;
  }

  /** `run_sequence`. */
  method RunSequence(io: SequenceIo, setVariant: bool) returns (result: SequenceResult)
    requires io.sent == [] && !io.captured
    modifies io
    ensures Legal(io.sent, setVariant)
    ensures result.variantRequested == setVariant
    ensures result.stopAttempted <==> StoppedAgain(io.sent, setVariant)
    ensures result.stopConfirmed <==> StartStopConfirmed(io.sent, setVariant)
    ensures result.sequenceComplete <==> StartStopConfirmed(io.sent, setVariant) && io.captured
    ensures result.sequenceComplete ==>
      && result.statusConfirmed && result.original.operatingMode == 0x25
      && result.variantConfirmed == setVariant
      && result.startConfirmed && result.captureComplete && result.stopConfirmed
  {
    hide StatusPhase, Prepared, VariantFailed;
    var go, threw;
    result, go, threw := Prepare(io, BLANK.(variantRequested := setVariant), setVariant);
    if !go {
      if threw {
        ghost var none;
        result, none := StopOnce(io, result);
      }
      NotStopped(io.sent, setVariant);
      return;
    }
    ghost var prepared := io.sent;
    PreparedIsLegal(prepared, setVariant);
    NotStopped(prepared, setVariant);
    var interrupted := io.Interrupted();
    if interrupted.Threw? {
      ghost var none;
      result, none := StopOnce(io, result);
      return;
    }
    if interrupted.value {
      return;
    }
    result := StartAndCapture(io, result, setVariant);
  }

  /** Start, capture and the stop behind them, including the `catch` block. */
  method StartAndCapture(io: SequenceIo, before: SequenceResult, setVariant: bool) returns (result: SequenceResult)
    requires Prepared(io.sent, setVariant) && !io.captured
    requires !before.startAttempted && !before.stopAttempted && !before.startConfirmed && !before.stopConfirmed
             && !before.captureComplete && !before.sequenceComplete
    modifies io
    ensures StoppedShort(io.sent, setVariant) || StoppedAgain(io.sent, setVariant)
    ensures result.stopAttempted <==> StoppedAgain(io.sent, setVariant)
    ensures result.stopConfirmed <==> StartStopConfirmed(io.sent, setVariant)
    ensures result.sequenceComplete <==> StartStopConfirmed(io.sent, setVariant) && io.captured
    ensures result.sequenceComplete ==> result.startConfirmed && result.captureComplete && result.stopConfirmed
    ensures result.original == before.original && result.statusConfirmed == before.statusConfirmed
    ensures result.variantConfirmed == before.variantConfirmed && result.variantRequested == before.variantRequested
  {
    hide Prepared, StoppedShort, StoppedAgain, StartStopConfirmed;
    ghost var prepared := io.sent;
    var finished;
    ghost var start;
    result, finished, start := TryStart(io, before);
    StartMeans(prepared, start, setVariant);
    // Reached by returning from a failed start, by finishing the capture and by the catch block.
    ghost var stop;
    result, stop := StopOnce(io, result);
    if stop.Some? {
      StopMeans(prepared, start, stop.value, setVariant);
    }
    if finished {
      result := result.(sequenceComplete := result.captureComplete && result.stopConfirmed);
    }
  }

  /** Start and, once it is confirmed, the capture; `finished` where neither failed nor threw. */
  method TryStart(io: SequenceIo, before: SequenceResult)
    returns (result: SequenceResult, finished: bool, ghost start: Sent)
    requires !io.captured && !before.startConfirmed && !before.captureComplete
    modifies io
    ensures IsCall(start, Start, false) && io.sent == old(io.sent) + [start]
    ensures result == before.(startAttempted := MayHaveStarted(start), startConfirmed := Succeeded(start),
                              captureComplete := finished && io.captured)
    ensures finished ==> Succeeded(start)
    ensures io.captured ==> finished
  {
    finished := false;
    var attempted, confirmed, complete := true, false, false;
    var started := io.Exchange(Start, false);
    start := Sent(Start, false, started);
    if started.Returned? {
      attempted := started.value.writeAttempted;
      if started.value.success {
        confirmed := true;
        var captured := io.Capture();
        if captured.Returned? {
          complete, finished := captured.value, true;
        }
      }
    }
    result := before.(startAttempted := attempted, startConfirmed := confirmed, captureComplete := complete);
  }

  lemma StartMeans(prepared: seq<Sent>, start: Sent, setVariant: bool)
    requires Prepared(prepared, setVariant) && IsCall(start, Start, false)
    ensures !MayHaveStarted(start) ==> StoppedShort(prepared + [start], setVariant)
    ensures !StartStopConfirmed(prepared + [start], setVariant) && !StoppedAgain(prepared + [start], setVariant)
  {
    hide Prepared;
    assert (prepared + [start])[..|prepared|] == prepared;
  }

  lemma StopMeans(prepared: seq<Sent>, start: Sent, stop: Sent, setVariant: bool)
    requires Prepared(prepared, setVariant) && IsCall(start, Start, false) && MayHaveStarted(start)
    requires IsCall(stop, Stop, true)
    ensures StoppedAgain(prepared + [start] + [stop], setVariant)
    ensures StartStopConfirmed(prepared + [start] + [stop], setVariant) <==> Succeeded(start) && Succeeded(stop)
  {
    hide Prepared;
    assert (prepared + [start] + [stop])[..|prepared|] == prepared;
  }

  lemma PreparedIsLegal(sent: seq<Sent>, setVariant: bool)
    requires Prepared(sent, setVariant)
    ensures Legal(sent, setVariant)
  {
  }

  lemma NotStopped(sent: seq<Sent>, setVariant: bool)
    requires StatusPhase(sent) || VariantFailed(sent) || Prepared(sent, setVariant)
    ensures !StoppedAgain(sent, setVariant)
  {
  }

  // ---------------------------------------------------------------- what a legal trace means

  function Count(sent: seq<Sent>, command: Command): nat {
    if sent == [] then 0 else Count(sent[..|sent| - 1], command) + (if sent[|sent| - 1].command == command then 1 else 0)
  }

  lemma CountSnoc(sent: seq<Sent>, s: Sent, command: Command)
    ensures Count(sent + [s], command) == Count(sent, command) + (if s.command == command then 1 else 0)
  {
    assert (sent + [s])[..|sent|] == sent;
  }

  function Rank(command: Command): nat {
    match command
    case Status => 0
    case Variant => 1
    case Start => 2
    case Stop => 3
  }

  predicate Ordered(sent: seq<Sent>) {
    forall i, j | 0 <= i < j < |sent| :: Rank(sent[i].command) <= Rank(sent[j].command)
  }

  lemma {:induction false} StatusCounts(sent: seq<Sent>)
    requires forall s | s in sent :: s.command == Status
    ensures Count(sent, Status) == |sent|
    ensures forall c | c != Status :: Count(sent, c) == 0
    decreases |sent|
  {
    if sent != [] {
      StatusCounts(sent[..|sent| - 1]);
    }
  }

  lemma PreparedCounts(sent: seq<Sent>, setVariant: bool)
    requires StatusPhase(sent) || (setVariant && VariantFailed(sent)) || Prepared(sent, setVariant)
    ensures Count(sent, Status) <= 3 && Count(sent, Variant) <= (if setVariant then 1 else 0)
    ensures Count(sent, Start) == 0 && Count(sent, Stop) == 0
    ensures Ordered(sent) && forall s | s in sent :: Rank(s.command) <= 1 && !s.cleanup
  {
    var n := |sent| - 1;
    if StatusPhase(sent) {
      StatusCounts(sent);
    } else {
      StatusCounts(sent[..n]);
      assert forall i | 0 <= i < n :: sent[i] == sent[..n][i];
    }
  }

  /**
   Every allowed trace, read off directly: at most three Status, then at most one Variant (only if
   requested), at most one Start, at most one Stop; Stop is the only cleanup call, and it is sent
   exactly when Start threw or reported a write attempt.
   */
  lemma LegalTraceMeaning(sent: seq<Sent>, setVariant: bool)
    requires Legal(sent, setVariant)
    ensures Count(sent, Status) <= 3 && Count(sent, Variant) <= (if setVariant then 1 else 0)
    ensures Count(sent, Start) <= 1 && Count(sent, Stop) <= 1
    ensures Ordered(sent)
    ensures forall s | s in sent :: s.cleanup <==> s.command == Stop
    ensures Count(sent, Stop) == 1 <==> exists s | s in sent :: s.command == Start && MayHaveStarted(s)
  {
    if StoppedShort(sent, setVariant) {
      ShortTrace(sent, setVariant);
    } else if StoppedAgain(sent, setVariant) {
      StoppedTrace(sent, setVariant);
    } else {
      hide StatusPhase, Prepared, VariantFailed;
      PreparedCounts(sent, setVariant);
    }
  }

  lemma ShortTrace(sent: seq<Sent>, setVariant: bool)
    requires StoppedShort(sent, setVariant)
    ensures Count(sent, Status) <= 3 && Count(sent, Variant) <= (if setVariant then 1 else 0)
    ensures Count(sent, Start) == 1 && Count(sent, Stop) == 0
    ensures Ordered(sent)
    ensures forall s | s in sent :: s.command != Stop && !s.cleanup && (s.command == Start ==> !MayHaveStarted(s))
  {
    hide StatusPhase, Prepared, VariantFailed;
    var n := |sent| - 1;
    var early := sent[..n];
    PreparedCounts(early, setVariant);
    assert sent == early + [sent[n]];
  }

  lemma StoppedTrace(sent: seq<Sent>, setVariant: bool)
    requires StoppedAgain(sent, setVariant)
    ensures Count(sent, Status) <= 3 && Count(sent, Variant) <= (if setVariant then 1 else 0)
    ensures Count(sent, Start) == 1 && Count(sent, Stop) == 1
    ensures Ordered(sent)
    ensures forall s | s in sent :: s.cleanup <==> s.command == Stop
    ensures exists s | s in sent :: s.command == Start && MayHaveStarted(s)
  {
    hide StatusPhase, Prepared, VariantFailed;
    var n := |sent| - 2;
    var early := sent[..n];
    PreparedCounts(early, setVariant);
    var started := early + [sent[n]];
    assert sent == started + [sent[n + 1]];
    forall c: Command
      ensures Count(sent, c) == Count(early, c) + (if sent[n].command == c then 1 else 0)
                                + (if sent[n + 1].command == c then 1 else 0)
    {
      CountSnoc(early, sent[n], c);
      CountSnoc(started, sent[n + 1], c);
    }
    assert sent[n] in sent;
    hide Count;
  }

  // ---------------------------------------------------------------- Session::exchange

  /** What the port reported during one `Session::exchange`, and the handshake it ended with. */
  datatype Observed = Observed(
    interruptedBefore: bool, writeComplete: bool, drained: bool, readerOk: bool,
    interruptedAfter: bool, received: nat, deadlineReached: bool, handshake: Latch)

  /** The result part of `Session::exchange` for a call whose port operations returned. */
  function SessionExchange(command: Command, cleanup: bool, o: Observed): (e: Exchange)
    ensures e.success ==>
      && e.writeAttempted && Successful(o.handshake) && o.writeComplete && o.drained && o.readerOk
      && e.status == o.handshake.status
    ensures e.mayRetry ==>
      && command == Status && e.writeAttempted && o.writeComplete && o.drained && o.readerOk
      && o.received == 0 && o.deadlineReached && !o.interruptedAfter
    ensures e.writeAttempted <==> cleanup || !o.interruptedBefore
    ensures !e.writeAttempted ==> !e.success && !e.mayRetry
  {
    if o.interruptedBefore && !cleanup then Exchange(false, false, false, NO_STATUS) else
      var success := Successful(o.handshake) && o.writeComplete && o.drained && o.readerOk;
      var mayRetry := command == Status && o.writeComplete && o.drained && o.readerOk
                      && !o.interruptedAfter && o.received == 0 && o.deadlineReached;
      Exchange(success, true, mayRetry, if success then o.handshake.status else NO_STATUS)
  }
}
